/** The delivery side of a job: the endpoint that serves a job's stream from an offset, and the
    browser hook that folds what it receives, over any number of reconnects. An entry's offset is
    its one-based position; "no header" is offset zero. */
module Relay {
  import opened Options
  import opened JobModel

  datatype Frame = Frame(id: nat, event: Event)

  predicate Ends(e: Event) { e.FinalEvent? || e.ErrorEvent? }

  const BATCH := 200

  // --- Serving --------------------------------------------------------------------------

  /** An entry as the stream holds it: one the reader can decode, or not. */
  datatype Raw = Entry(event: Event) | Unreadable

  /** The readable entries from index `from` up to `upto`, each with its offset. */
  function FramesIn(raw: seq<Raw>, from: nat, upto: nat): seq<Frame>
    requires from <= upto <= |raw|
    decreases upto - from
  {
    if from == upto then []
    else
      FramesIn(raw, from, upto - 1)
      + if raw[upto - 1].Entry? then [Frame(upto, raw[upto - 1].event)] else []
  }

  ghost predicate Ascending(frames: seq<Frame>) {
    forall i, k :: 0 <= i < k < |frames| ==> frames[i].id < frames[k].id
  }

  lemma FramesNext(raw: seq<Raw>, from: nat, upto: nat)
    requires from < upto <= |raw|
    ensures FramesIn(raw, from, upto) == match raw[upto - 1]
      case Unreadable => FramesIn(raw, from, upto - 1)
      case Entry(event) => FramesIn(raw, from, upto - 1) + [Frame(upto, event)]
    ensures FramesIn(raw, from, from) == []
  {
  }

  /** Each frame is the entry at its offset, and they ascend. */
  lemma {:induction false} FramesAre(raw: seq<Raw>, from: nat, upto: nat)
    requires from <= upto <= |raw|
    ensures var frames := FramesIn(raw, from, upto);
      && Ascending(frames)
      && forall i :: 0 <= i < |frames|
          ==> from < frames[i].id <= upto && raw[frames[i].id - 1] == Entry(frames[i].event)
    decreases upto
  {
    if from < upto {
      FramesNext(raw, from, upto);
      hide FramesIn;
      FramesAre(raw, from, upto - 1);
    }
  }

  function BatchEnd(raw: seq<Raw>, offset: nat): (end: nat)
    requires offset <= |raw|
    ensures offset <= end <= |raw| && end - offset <= BATCH
    ensures end == |raw| || end == offset + BATCH
  {
    if |raw| - offset <= BATCH then |raw| else offset + BATCH
  }

  /** XREAD and its decoding loop: the readable among at most a batch of the entries after the
      offset. */
  method ReadRelay(raw: seq<Raw>, offset: nat) returns (events: seq<Frame>)
    ensures events == if offset >= |raw| then [] else FramesIn(raw, offset, BatchEnd(raw, offset))
  {
    events := [];
    if offset >= |raw| { return; }
    for i := offset to BatchEnd(raw, offset)
      invariant events == FramesIn(raw, offset, i)
    {
      match raw[i]
      case Unreadable =>
      case Entry(event) => events := events + [Frame(i + 1, event)];
    }
  }

  lemma {:induction false} FramesSplit(raw: seq<Raw>, from: nat, mid: nat, upto: nat)
    requires from <= mid <= upto <= |raw|
    ensures FramesIn(raw, from, mid) + FramesIn(raw, mid, upto) == FramesIn(raw, from, upto)
    decreases upto
  {
    if mid < upto {
      FramesSplit(raw, from, mid, upto - 1);
      var last := if raw[upto - 1].Entry? then [Frame(upto, raw[upto - 1].event)] else [];
      assert FramesIn(raw, from, mid) + (FramesIn(raw, mid, upto - 1) + last)
          == FramesIn(raw, from, mid) + FramesIn(raw, mid, upto - 1) + last;
    } else {
      assert FramesIn(raw, from, mid) + [] == FramesIn(raw, from, mid);
    }
  }

  lemma {:induction false} FramesLonger(raw: seq<Raw>, longer: seq<Raw>, from: nat, upto: nat)
    requires raw <= longer && from <= upto <= |raw|
    ensures FramesIn(longer, from, upto) == FramesIn(raw, from, upto)
    decreases upto
  {
    if from < upto { FramesLonger(raw, longer, from, upto - 1); }
  }

  /** A reader that gets nothing where something is stored has a whole batch of unreadable entries
      before it, and it will never get past them. */
  lemma {:induction false} NothingReadIff(raw: seq<Raw>, offset: nat, upto: nat)
    requires offset <= upto <= |raw|
    ensures FramesIn(raw, offset, upto) == [] <==> forall i :: offset <= i < upto ==> raw[i].Unreadable?
    decreases upto
  {
    if offset < upto {
      hide FramesIn;
      FramesNext(raw, offset, upto);
      NothingReadIff(raw, offset, upto - 1);
      var rest, last := FramesIn(raw, offset, upto - 1), raw[upto - 1];
      assert last.Entry? ==> |rest + [Frame(upto, last.event)]| > 0;
    }
  }

  lemma StuckForGood(raw: seq<Raw>, longer: seq<Raw>, offset: nat)
    requires raw <= longer && offset + BATCH <= |raw| && FramesIn(raw, offset, BatchEnd(raw, offset)) == []
    ensures FramesIn(longer, offset, BatchEnd(longer, offset)) == []
  {
    FramesLonger(raw, longer, offset, offset + BATCH);
  }

  /** `frames` are the readable entries after offset `start`, up to where the last of them stands:
      none missing, none twice; and the connection is over with the first outcome. */
  ghost predicate Serves(frames: seq<Frame>, raw: seq<Raw>, start: nat) {
    frames == [] ||
    (&& start < frames[|frames| - 1].id <= |raw|
     && frames == FramesIn(raw, start, frames[|frames| - 1].id)
     && forall i :: 0 <= i < |frames| - 1 ==> !Ends(frames[i].event))
  }

  /** The offset a connection has come to. */
  function At(frames: seq<Frame>, start: nat): nat {
    if frames == [] then start else frames[|frames| - 1].id
  }

  ghost predicate Growing(polls: seq<seq<Raw>>) {
    forall i, k :: 0 <= i <= k < |polls| ==> polls[i] <= polls[k]
  }

  lemma ServesLonger(frames: seq<Frame>, raw: seq<Raw>, longer: seq<Raw>, start: nat)
    requires Serves(frames, raw, start) && raw <= longer
    ensures Serves(frames, longer, start)
  {
    if frames != [] { FramesLonger(raw, longer, start, frames[|frames| - 1].id); }
  }

  /** One more frame, the next readable entry. */
  lemma ServesOneMore(sent: seq<Frame>, raw: seq<Raw>, start: nat, upto: nat, i: nat)
    requires Serves(sent, raw, start) && (sent != [] ==> !Ends(sent[|sent| - 1].event))
    requires At(sent, start) <= upto <= |raw|
    requires var events := FramesIn(raw, At(sent, start), upto);
      i < |events| && forall k :: 0 <= k < i ==> !Ends(events[k].event)
    ensures var events := FramesIn(raw, At(sent, start), upto); Serves(sent + events[..i + 1], raw, start)
  {
    hide FramesIn, Ascending, Ends;
    var at := At(sent, start);
    var events := FramesIn(raw, at, upto);
    FramesAre(raw, at, upto);
    var id := events[i].id;
    NoFrames(raw, start);
    ServedLast(sent, events, i);
    hide Serves;
    assert sent == FramesIn(raw, start, at);
    HeadOf(raw, at, upto, i);
    FramesSplit(raw, start, at, id);
    ServesAll(sent + events[..i + 1], raw, start, id);
  }

  /** The frames up to the `i`th of a stretch are its first ones. */
  lemma HeadOf(raw: seq<Raw>, at: nat, upto: nat, i: nat)
    requires at <= upto <= |raw| && i < |FramesIn(raw, at, upto)|
    ensures var events := FramesIn(raw, at, upto); var id := events[i].id;
      at < id <= upto && FramesIn(raw, at, id) == events[..i + 1]
  {
    hide FramesIn, Ascending;
    var events := FramesIn(raw, at, upto);
    FramesAre(raw, at, upto);
    var id := events[i].id;
    EndsAt(raw, at, id);
    FramesSplit(raw, at, id, upto);
    SamePrefix(FramesIn(raw, at, id), events, i);
  }

  lemma ServesAll(frames: seq<Frame>, raw: seq<Raw>, start: nat, id: nat)
    requires start < id <= |raw| && frames == FramesIn(raw, start, id) && frames != [] && frames[|frames| - 1].id == id
    requires forall k :: 0 <= k < |frames| - 1 ==> !Ends(frames[k].event)
    ensures Serves(frames, raw, start)
  {
    hide FramesIn, Ends;
  }

  lemma NoFrames(raw: seq<Raw>, at: nat)
    ensures at <= |raw| ==> FramesIn(raw, at, at) == []
  {
  }

  lemma ServedLast(sent: seq<Frame>, events: seq<Frame>, i: nat)
    requires i < |events| && (forall k :: 0 <= k < i ==> !Ends(events[k].event))
    requires forall k :: 0 <= k < |sent| ==> !Ends(sent[k].event)
    ensures var all := sent + events[..i + 1];
      all[|all| - 1] == events[i] && forall k :: 0 <= k < |all| - 1 ==> !Ends(all[k].event)
  {
    hide Ends;
  }

  lemma EndsAt(raw: seq<Raw>, from: nat, id: nat)
    requires from < id <= |raw| && raw[id - 1].Entry?
    ensures var frames := FramesIn(raw, from, id); frames != [] && frames[|frames| - 1].id == id
  {
  }

  lemma SamePrefix(head: seq<Frame>, events: seq<Frame>, i: nat)
    requires head <= events && head != [] && i < |events| && head[|head| - 1].id == events[i].id
    requires Ascending(events)
    ensures head == events[..i + 1]
  {
    hide Ascending;
    var n := |head| - 1;
    assert events[n] == head[n];
    if n < i { Ascend(events, n, i); }
    if i < n { Ascend(events, i, n); }
  }

  lemma Ascend(events: seq<Frame>, j: nat, k: nat)
    requires j < k < |events| && Ascending(events)
    ensures events[j].id < events[k].id
  {
  }

  lemma AtWithin(sent: seq<Frame>, raw: seq<Raw>, start: nat)
    requires Serves(sent, raw, start)
    ensures sent != [] ==> At(sent, start) <= |raw|
  {
  }

  // --- What a connection sends ------------------------------------------------------------

  /** One poll: the readable entries of the batch after the offset. */
  function Batch(raw: seq<Raw>, at: nat): seq<Frame> {
    if at >= |raw| then [] else FramesIn(raw, at, BatchEnd(raw, at))
  }

  /** What polling on and on would send. */
  function Polled(polls: seq<seq<Raw>>, start: nat): seq<Frame>
    decreases |polls|
  {
    if polls == [] then []
    else
      var n := |polls| - 1;
      var before := Polled(polls[..n], start);
      before + Batch(polls[n], At(before, start))
  }

  /** What goes out of it: up to and including an outcome, and no more than the client stays for. */
  function Cut(frames: seq<Frame>, patience: nat): seq<Frame> {
    if frames == [] || patience == 0 then []
    else if Ends(frames[0].event) then [frames[0]]
    else [frames[0]] + Cut(frames[1..], patience - 1)
  }

  predicate Over(frames: seq<Frame>, patience: nat) {
    |frames| >= patience || (frames != [] && Ends(frames[|frames| - 1].event))
  }

  predicate Quiet(frames: seq<Frame>) {
    forall k :: 0 <= k < |frames| ==> !Ends(frames[k].event)
  }

  /** Frames without an outcome before their last are cut nowhere, unless the client leaves. */
  lemma {:induction false} CutQuiet(frames: seq<Frame>, patience: nat)
    requires |frames| <= patience && (frames == [] || Quiet(frames[..|frames| - 1]))
    ensures Cut(frames, patience) == frames
    decreases |frames|
  {
    if frames != [] {
      var rest := frames[1..];
      if rest != [] {
        assert rest[..|rest| - 1] == frames[..|frames| - 1][1..];
        assert frames[..|frames| - 1][0] == frames[0];
        CutQuiet(rest, patience - 1);
      }
    }
  }

  /** What is not over was not cut. */
  lemma {:induction false} CutWhole(frames: seq<Frame>, patience: nat)
    ensures !Over(Cut(frames, patience), patience) ==> Cut(frames, patience) == frames
    decreases |frames|
  {
    if frames != [] && patience > 0 && !Ends(frames[0].event) {
      CutWhole(frames[1..], patience - 1);
      var rest := Cut(frames[1..], patience - 1);
      assert ([frames[0]] + rest)[|rest|] == if rest == [] then frames[0] else rest[|rest| - 1];
    }
  }

  /** Once over, what would come after makes no difference. */
  lemma {:induction false} CutOver(frames: seq<Frame>, more: seq<Frame>, patience: nat)
    requires |frames| <= patience && (frames == [] || Quiet(frames[..|frames| - 1])) && Over(frames, patience)
    ensures Cut(frames + more, patience) == frames
    decreases |frames|
  {
    if frames != [] {
      var rest := frames[1..];
      assert (frames + more)[0] == frames[0] && (frames + more)[1..] == rest + more;
      if rest != [] {
        assert rest[..|rest| - 1] == frames[..|frames| - 1][1..];
        assert frames[..|frames| - 1][0] == frames[0];
        CutOver(rest, more, patience - 1);
      } else if !Ends(frames[0].event) {
        assert Cut(rest + more, patience - 1) == [];
      }
    }
  }

  /** More polls only send more. */
  lemma {:induction false} PolledGrows(polls: seq<seq<Raw>>, start: nat, n: nat)
    requires n <= |polls|
    ensures Polled(polls[..n], start) <= Polled(polls, start)
    decreases |polls|
  {
    hide Batch;
    if n < |polls| {
      var last := |polls| - 1;
      PolledGrows(polls[..last], start, n);
      assert polls[..last][..n] == polls[..n];
    } else {
      assert polls[..n] == polls;
    }
  }

  /** The frames of one batch that go out: up to and including an outcome. */
  method SendBatch(sent: seq<Frame>, raw: seq<Raw>, start: nat, patience: nat) returns (frames: seq<Frame>, over: bool)
    requires Serves(sent, raw, start) && Quiet(sent) && |sent| < patience
    ensures |frames| <= patience && Serves(frames, raw, start)
    ensures var all := sent + Batch(raw, At(sent, start));
      && sent <= frames <= all && (frames == [] || Quiet(frames[..|frames| - 1]))
      && (!over ==> frames == all && Quiet(frames))
    ensures over == Over(frames, patience)
  {
    hide FramesIn, Serves, Ends, BatchEnd;
    ghost var at := At(sent, start);
    AtWithin(sent, raw, start);
    var events := ReadRelay(raw, if sent == [] then start else sent[|sent| - 1].id);
    assert events == Batch(raw, at);
    frames, over := sent, false;
    assert sent + events[..0] == sent;
    for i := 0 to |events|
      invariant !over && frames == sent + events[..i]
      invariant Serves(frames, raw, start) && |frames| < patience
      invariant Quiet(frames)
    {
      assert forall k :: 0 <= k < i ==> events[k] == frames[|sent| + k];
      ServesOneMore(sent, raw, start, BatchEnd(raw, at), i);
      assert frames + [events[i]] == sent + events[..i + 1];
      assert (frames + [events[i]])[..|frames|] == frames;
      frames := frames + [events[i]];
      over := |frames| == patience || Ends(events[i].event);
      if over { return; }
    }
    assert events[..|events|] == events;
    assert frames == [] || Quiet(frames[..|frames| - 1]);
  }

  /** stream_job's loop: each poll reads the stream as it then is; the client may go away after
      any number of frames. A job that was finished before the stream expired ends at once. What
      was sent is what the polls give, cut at the outcome or where the client left; and that is what
      can be read after the offset, none missing, none twice. */
  method StreamJob(polls: seq<seq<Raw>>, lastEventId: Option<nat>, finished: bool,
                   patience: nat) returns (frames: seq<Frame>)
    requires Growing(polls) && polls != []
    ensures |frames| <= patience && Serves(frames, polls[|polls| - 1], lastEventId.GetOr(0))
    ensures frames == if finished && lastEventId.None? && Batch(polls[0], 0) == [] then []
                      else Cut(Polled(polls, lastEventId.GetOr(0)), patience)
  {
    hide Batch, Serves, Ends, Polled, Cut, At;
    frames := [];
    NothingCut(patience);
    var start := lastEventId.GetOr(0);
    NothingServed(polls[|polls| - 1], start);
    FirstPoll(polls, start);
    if patience == 0 { return; }
    for p := 0 to |polls|
      invariant |frames| < patience && Quiet(frames) && frames == Polled(polls[..p], start)
      invariant p > 0 ==> Serves(frames, polls[p - 1], start)
      invariant p > 0 && finished && lastEventId.None? ==> Batch(polls[0], 0) != []
    {
      if p > 0 { ServesLonger(frames, polls[p - 1], polls[p], start); } else { NothingServed(polls[p], start); }
      var over: bool;
      PolledNext(polls, start, p);
      frames, over := SendBatch(frames, polls[p], start, patience);
      if finished && lastEventId.None? && frames == [] && p == 0 {
        return;
      }
      if over {
        ServesLonger(frames, polls[p], polls[|polls| - 1], start);
        PolledOver(polls, start, p, frames, patience);
        return;
      }
    }
    assert polls[..|polls|] == polls;
    CutQuiet(frames, patience);
  }

  lemma NothingCut(patience: nat)
    ensures forall frames :: patience == 0 ==> Cut(frames, patience) == []
  {
  }

  lemma PolledNext(polls: seq<seq<Raw>>, start: nat, p: nat)
    requires p < |polls|
    ensures var before := Polled(polls[..p], start);
      Polled(polls[..p + 1], start) == before + Batch(polls[p], At(before, start))
  {
    hide Batch, At;
    assert polls[..p + 1][..p] == polls[..p];
  }

  lemma PolledOver(polls: seq<seq<Raw>>, start: nat, p: nat, frames: seq<Frame>, patience: nat)
    requires p < |polls| && frames <= Polled(polls[..p + 1], start) && |frames| <= patience
    requires (frames == [] || Quiet(frames[..|frames| - 1])) && Over(frames, patience)
    ensures Cut(Polled(polls, start), patience) == frames
  {
    hide Polled, Quiet, Over, Cut;
    PolledGrows(polls, start, p + 1);
    var rest := Polled(polls, start)[|frames|..];
    assert Polled(polls, start) == frames + rest;
    CutOver(frames, rest, patience);
  }

  lemma NothingServed(raw: seq<Raw>, start: nat)
    ensures Serves([], raw, start)
  {
  }

  lemma FirstPoll(polls: seq<seq<Raw>>, start: nat)
    requires polls != []
    ensures Polled(polls[..0], start) == [] && Polled(polls[..1], start) == Batch(polls[0], start)
    ensures Polled(polls, start) == [] ==> Batch(polls[0], start) == []
  {
    assert polls[..1][..0] == [] && polls[..0] == [];
    assert Polled(polls[..0], start) == [];
    PolledGrows(polls, start, 1);
  }

  // --- How far a connection gets ------------------------------------------------------------

  lemma PollsBefore(polls: seq<seq<Raw>>, start: nat)
    requires polls != [] && Growing(polls)
    ensures var n := |polls| - 1; var before := Polled(polls[..n], start);
      && Growing(polls[..n]) && (n > 0 ==> polls[n - 1] <= polls[n])
      && Polled(polls, start) == before + Batch(polls[n], At(before, start))
  {
    hide Batch, At;
    var n := |polls| - 1;
    assert forall i, k :: 0 <= i <= k < n ==> polls[..n][i] <= polls[..n][k];
  }

  /** Polling sends the readable entries after the start, up to where the last of them stands. */
  lemma {:induction false} PolledIs(polls: seq<seq<Raw>>, start: nat)
    requires polls != [] && Growing(polls)
    ensures var frames, last := Polled(polls, start), polls[|polls| - 1]; var at := At(frames, start);
      frames != [] ==> start < at <= |last| && frames == FramesIn(last, start, at)
    decreases |polls|
  {
    PollsBefore(polls, start);
    PolledWas(polls, start);
    hide FramesIn, Batch, Polled;
    BatchAfter(polls[|polls| - 1], Polled(polls[..|polls| - 1], start), start);
  }

  /** What the earlier polls sent, read off the last of them. */
  lemma {:induction false} PolledWas(polls: seq<seq<Raw>>, start: nat)
    requires polls != [] && Growing(polls)
    ensures var n := |polls| - 1; var before := Polled(polls[..n], start); var at := At(before, start);
      before != [] ==> start < at <= |polls[n]| && before == FramesIn(polls[n], start, at)
    decreases |polls|, 0
  {
    PollsBefore(polls, start);
    var n := |polls| - 1;
    var before := Polled(polls[..n], start);
    if n > 0 {
      PolledIs(polls[..n], start);
      hide FramesIn, Polled;
      if before != [] { FramesLonger(polls[n - 1], polls[n], start, At(before, start)); }
    }
  }

  lemma BatchAfter(raw: seq<Raw>, before: seq<Frame>, start: nat)
    requires var at := At(before, start); before != [] ==> start < at <= |raw| && before == FramesIn(raw, start, at)
    ensures var at := At(before, start); var frames := before + Batch(raw, at);
      frames != [] ==> start < At(frames, start) <= |raw| && frames == FramesIn(raw, start, At(frames, start))
  {
    hide FramesIn;
    var at := At(before, start);
    var batch := Batch(raw, at);
    if batch == [] {
      assert before + batch == before;
    } else {
      var end := BatchEnd(raw, at);
      HeadOf(raw, at, end, |batch| - 1);
      NoFrames(raw, start);
      FramesSplit(raw, start, at, batch[|batch| - 1].id);
      assert batch[..|batch|] == batch;
    }
  }

  /** A connection with no more than a batch before it sends all there is, unless it ends or the client
      leaves. */
  lemma PolledCatchesUp(polls: seq<seq<Raw>>, start: nat)
    requires polls != [] && Growing(polls)
    requires start <= |polls[|polls| - 1]| <= start + BATCH
    ensures Polled(polls, start) == FramesIn(polls[|polls| - 1], start, |polls[|polls| - 1]|)
  {
    PollsBefore(polls, start);
    PolledWas(polls, start);
    hide FramesIn, Polled;
    BatchesUp(polls[|polls| - 1], Polled(polls[..|polls| - 1], start), start);
  }

  lemma BatchesUp(raw: seq<Raw>, before: seq<Frame>, start: nat)
    requires start <= |raw| <= start + BATCH
    requires var at := At(before, start); before != [] ==> start < at <= |raw| && before == FramesIn(raw, start, at)
    ensures before + Batch(raw, At(before, start)) == FramesIn(raw, start, |raw|)
  {
    hide FramesIn;
    NoFrames(raw, start);
    NoFrames(raw, |raw|);
    FramesSplit(raw, start, At(before, start), |raw|);
  }

  predicate Readable(raw: seq<Raw>) { forall i :: 0 <= i < |raw| ==> raw[i].Entry? }

  lemma ReadableBatch(raw: seq<Raw>, at: nat)
    requires Readable(raw) && at < |raw|
    ensures var batch := Batch(raw, at); batch != [] && batch[|batch| - 1].id == BatchEnd(raw, at)
  {
    FramesNext(raw, at, BatchEnd(raw, at));
  }

  /** Where every entry can be read, each poll brings a connection a batch further, until it has caught
      up with what there was to read. */
  lemma {:induction false} PolledProgress(polls: seq<seq<Raw>>, start: nat, k: nat)
    requires k < |polls| && Growing(polls) && Readable(polls[|polls| - 1])
    ensures At(Polled(polls, start), start) >= Min(|polls[k]|, start + BATCH * (|polls| - k))
    decreases |polls|
  {
    PollsBefore(polls, start);
    hide FramesIn, Batch, Polled;
    var n := |polls| - 1;
    var last, before := polls[n], Polled(polls[..n], start);
    if k < n {
      assert polls[k] <= polls[n - 1] && polls[..n][k] == polls[k];
      PrefixReadable(polls[n - 1], last);
      PolledProgress(polls[..n], start, k);
    } else {
      StartsLater(polls[..n], start);
    }
    BatchFurther(last, before, start);
  }

  lemma PrefixReadable(raw: seq<Raw>, longer: seq<Raw>)
    requires raw <= longer && Readable(longer)
    ensures Readable(raw)
  {
  }

  lemma BatchFurther(raw: seq<Raw>, before: seq<Frame>, start: nat)
    requires Readable(raw)
    ensures var at := At(before, start); At(before + Batch(raw, at), start) >= Min(|raw|, at + BATCH)
    ensures At(before + Batch(raw, At(before, start)), start) >= At(before, start)
  {
    var at := At(before, start);
    NoBatch(raw, at);
    if at < |raw| { ReadableBatch(raw, at); }
    hide Batch;
    if at < |raw| {
      LastOf(before, Batch(raw, at), start);
    } else {
      assert before + [] == before;
    }
  }

  lemma LastOf(before: seq<Frame>, batch: seq<Frame>, start: nat)
    requires batch != []
    ensures At(before + batch, start) == batch[|batch| - 1].id
  {
  }

  lemma NoBatch(raw: seq<Raw>, at: nat)
    ensures at >= |raw| ==> Batch(raw, at) == []
  {
  }

  lemma StartsLater(polls: seq<seq<Raw>>, start: nat)
    requires Growing(polls)
    ensures At(Polled(polls, start), start) >= start
  {
    if polls != [] { PolledIs(polls, start); }
  }

  /** Where every entry can be read, as every one that publish writes can, the frames are the entries
      one after the other. */
  lemma {:induction false} ReadableFrames(raw: seq<Raw>, stream: Stream, from: nat, upto: nat)
    requires |raw| == |stream| && forall i :: 0 <= i < |raw| ==> raw[i] == Entry(stream[i])
    requires from <= upto <= |raw|
    ensures var frames := FramesIn(raw, from, upto);
      |frames| == upto - from && forall i :: 0 <= i < |frames| ==> frames[i] == Frame(from + i + 1, stream[from + i])
    decreases upto
  {
    if from < upto {
      FramesNext(raw, from, upto);
      hide FramesIn;
      ReadableFrames(raw, stream, from, upto - 1);
    }
  }

  // --- Following ------------------------------------------------------------------------

  /** What the hook shows. A message is named by its code, which determines its text. */
  datatype View = View(
    status: Status,
    answer: string,
    trace: seq<string>,
    citations: seq<string>,
    errorCode: Option<ErrorCode>,
    message: Option<ErrorCode>,
    clarifies: bool,
    attempt: nat,
    done: bool)

  const INITIAL := View(Queued, "", [], [], None, None, false, 0, false)

  /** The outcome's message, or the one there was. */
  function MessageOf(code: Option<ErrorCode>, before: Option<ErrorCode>): Option<ErrorCode> {
    if code.Some? then code else before
  }

  /** What one entry does to the view of a reader who gets every entry once. */
  function See(v: View, e: Event): View {
    if v.done then v
    else
      match e
      case StatusEvent(status, attempt) => v.(status := status, attempt := attempt)
      case TraceEvent(step) => v.(trace := v.trace + [step])
      case DeltaEvent(text) => v.(answer := v.answer + text)
      case FinalEvent(reply) =>
        v.(answer := reply.content, citations := reply.citations, clarifies := reply.clarifies,
           message := MessageOf(reply.code, v.message), status := Completed, done := true)
      case ErrorEvent(code) => v.(status := Failed, errorCode := Some(code), message := Some(code), done := true)
  }

  /** The uninterrupted pass. */
  function Shown(stream: Stream): View {
    if stream == [] then INITIAL else See(Shown(stream[..|stream| - 1]), stream[|stream| - 1])
  }

  datatype Client = Client(view: View, seen: set<nat>)

  predicate Guarded(e: Event) { e.TraceEvent? || e.DeltaEvent? }

  /** The hook's handlers: traces and chunks it has seen are ignored; once the source is closed
      nothing is handled. */
  function Received(c: Client, f: Frame): Client {
    if c.view.done || (Guarded(f.event) && f.id in c.seen) then c
    else Client(See(c.view, f.event), if Guarded(f.event) then c.seen + {f.id} else c.seen)
  }

  class JobStream {
    var view: View
    var seen: set<nat>

    ghost function State(): Client
      reads this
    {
      Client(view, seen)
    }

    constructor ()
      ensures State() == Client(INITIAL, {})
    {
      view, seen := INITIAL, {};
    }

    method Handle(f: Frame)
      modifies this
      ensures State() == Received(old(State()), f)
    {
      if view.done { return; }
      match f.event
      case StatusEvent(status, attempt) => view := view.(status := status, attempt := attempt);
      case TraceEvent(step) =>
        if f.id in seen { return; }
        seen := seen + {f.id};
        view := view.(trace := view.trace + [step]);
      case DeltaEvent(text) =>
        if f.id in seen { return; }
        seen := seen + {f.id};
        view := view.(answer := view.answer + text);
      case FinalEvent(reply) =>
        view := view.(answer := reply.content, citations := reply.citations, clarifies := reply.clarifies);
        if reply.code.Some? { view := view.(message := reply.code); }
        view := view.(status := Completed, done := true);
      case ErrorEvent(code) =>
        view := view.(status := Failed, errorCode := Some(code), message := Some(code), done := true);
    }
  }

  // --- Reconnects are invisible -----------------------------------------------------------

  /** One connection: resumed after `start`, dropped after the entry at offset `end`. */
  datatype Connection = Connection(start: nat, end: nat)

  function FollowOne(c: Client, stream: Stream, at: nat, end: nat): Client
    requires at <= end <= |stream|
    decreases end - at
  {
    if at == end then c else FollowOne(Received(c, Frame(at + 1, stream[at])), stream, at + 1, end)
  }

  /** Each connection starts at or before the last offset received: the one the browser sends
      back, or an earlier one, or none at all. */
  predicate Resumes(connections: seq<Connection>, stream: Stream, at: nat) {
    connections == [] ||
    (connections[0].start <= at && connections[0].start <= connections[0].end <= |stream|
     && Resumes(connections[1..], stream, connections[0].end))
  }

  function FollowAll(c: Client, stream: Stream, connections: seq<Connection>, at: nat): Client
    requires Resumes(connections, stream, at)
    decreases |connections|
  {
    if connections == [] then c
    else
      var k := connections[0];
      FollowAll(FollowOne(c, stream, k.start, k.end), stream, connections[1..], k.end)
  }

  function Max(a: nat, b: nat): nat { if a >= b then a else b }

  /** The largest offset any connection delivered. */
  function Furthest(connections: seq<Connection>, sofar: nat): nat {
    if connections == [] then sofar else Furthest(connections[1..], Max(sofar, connections[0].end))
  }

  function LastEnd(connections: seq<Connection>, at: nat): nat {
    if connections == [] then at else LastEnd(connections[1..], connections[0].end)
  }

  /** The client has received everything up to `high` and last received offset `at`. What it
      shows as status is the status in force at `tip`. */
  ghost predicate Follows(c: Client, stream: Stream, at: nat, tip: nat, high: nat) {
    && at <= tip <= high <= |stream|
    && var all := Shown(stream[..high]);
       if c.view.done then c.view == all
       else
         && (forall id :: id in c.seen <==> 0 < id <= high && Guarded(stream[id - 1]))
         && c.view == all.(status := Shown(stream[..tip]).status, attempt := Shown(stream[..tip]).attempt)
  }

  lemma ShownNext(stream: Stream, n: nat)
    requires n < |stream|
    ensures Shown(stream[..n + 1]) == See(Shown(stream[..n]), stream[n])
  {
    assert stream[..n + 1][..n] == stream[..n];
  }

  /** An outcome the uninterrupted pass has seen stays seen. */
  lemma {:induction false} DoneStays(stream: Stream, n: nat, m: nat)
    requires n <= m <= |stream| && Shown(stream[..n]).done
    ensures Shown(stream[..m]) == Shown(stream[..n])
    decreases m
  {
    if n < m {
      DoneStays(stream, n, m - 1);
      ShownNext(stream, m - 1);
    }
  }

  lemma ReceiveFollows(c: Client, stream: Stream, at: nat, tip: nat, high: nat) returns (tip': nat)
    requires Follows(c, stream, at, tip, high) && at < |stream|
    ensures Follows(Received(c, Frame(at + 1, stream[at])), stream, at + 1, tip', Max(high, at + 1))
  {
    hide Shown, MessageOf;
    var e := stream[at];
    ShownNext(stream, at);
    if c.view.done {
      tip' := Max(high, at + 1);
      DoneStays(stream, high, tip');
    } else if at < high {
      // Replayed: chunks and traces are known, an outcome would have closed the source.
      if Shown(stream[..at + 1]).done { DoneStays(stream, at + 1, high); }
      if Shown(stream[..at]).done { DoneStays(stream, at, high); }
      tip' := if e.StatusEvent? then at + 1 else Max(tip, at + 1);
    } else {
      tip' := at + 1;
    }
  }

  lemma {:induction false} FollowOneFollows(c: Client, stream: Stream, at: nat, end: nat, tip: nat,
                                            high: nat) returns (tip': nat)
    requires at <= end <= |stream| && Follows(c, stream, at, tip, high)
    ensures Follows(FollowOne(c, stream, at, end), stream, end, tip', Max(high, end))
    decreases end - at
  {
    if at == end {
      tip' := tip;
    } else {
      tip' := ReceiveFollows(c, stream, at, tip, high);
      tip' := FollowOneFollows(Received(c, Frame(at + 1, stream[at])), stream, at + 1, end, tip', Max(high, at + 1));
    }
  }

  lemma {:induction false} FollowAllFollows(c: Client, stream: Stream, connections: seq<Connection>, at: nat, tip: nat,
                                            high: nat)
    returns (tip': nat)
    requires Resumes(connections, stream, at) && Follows(c, stream, at, tip, high)
    ensures Follows(FollowAll(c, stream, connections, at), stream, LastEnd(connections, at), tip',
        Furthest(connections, high))
    decreases |connections|
  {
    if connections == [] {
      tip' := tip;
    } else {
      var k := connections[0];
      tip' := FollowOneFollows(c, stream, k.start, k.end, tip, high);
      tip' := FollowAllFollows(FollowOne(c, stream, k.start, k.end), stream, connections[1..], k.end, tip',
          Max(high, k.end));
    }
  }

  /** However the connection breaks and wherever it resumes, the reader has the answer, the trace
      and the outcome of one uninterrupted pass over what was delivered; and once the last
      connection has caught up, the whole view is that of the uninterrupted pass. */
  lemma ReconnectsAreInvisible(stream: Stream, connections: seq<Connection>)
    requires Resumes(connections, stream, 0)
    ensures var c := FollowAll(Client(INITIAL, {}), stream, connections, 0);
            var high := Furthest(connections, 0);
      && high <= |stream|
      && var once := Shown(stream[..high]);
         && c.view.answer == once.answer && c.view.trace == once.trace
         && c.view.citations == once.citations && c.view.clarifies == once.clarifies
         && c.view.errorCode == once.errorCode && c.view.message == once.message && c.view.done == once.done
         && (LastEnd(connections, 0) == high || once.done ==> c.view == once)
  {
    var tip := FollowAllFollows(Client(INITIAL, {}), stream, connections, 0, 0, 0);
  }
}
