/** What the hook shows of a stream, said of the entries it has received. */
module RelayView {
  import opened Options
  import opened JobModel
  import opened Relay

  /** What a reader takes notice of: everything up to the outcome. */
  function Heard(stream: Stream): Stream {
    if stream == [] then []
    else
      var before := Heard(stream[..|stream| - 1]);
      if exists e <- before :: e.FinalEvent? || e.ErrorEvent? then before else before + [stream[|stream| - 1]]
  }

  function Deltas(stream: Stream): string {
    if stream == [] then ""
    else
      var last := stream[|stream| - 1];
      Deltas(stream[..|stream| - 1]) + if last.DeltaEvent? then last.text else ""
  }

  function Steps(stream: Stream): seq<string> {
    if stream == [] then []
    else
      var last := stream[|stream| - 1];
      Steps(stream[..|stream| - 1]) + if last.TraceEvent? then [last.step] else []
  }

  /** The last status that was told, and with which attempt. */
  function Standing(stream: Stream): (Status, nat) {
    if stream == [] then (Queued, 0)
    else
      var last := stream[|stream| - 1];
      if last.StatusEvent? then (last.status, last.attempt) else Standing(stream[..|stream| - 1])
  }

  /** Before the outcome: the chunks in order, the steps in order, and where the job stands. At the
      outcome: the stored reply in place of the chunks, or the error and its message. */
  predicate ViewIs(heard: Stream, v: View) {
    var (status, attempt) := Standing(heard);
    && v.trace == Steps(heard) && v.attempt == attempt
    && if heard != [] && heard[|heard| - 1].FinalEvent? then
         var reply := heard[|heard| - 1].reply;
         && v.done && v.status == Completed && v.errorCode == None && v.message == reply.code
         && v.answer == reply.content && v.citations == reply.citations && v.clarifies == reply.clarifies
       else
         && v.answer == Deltas(heard) && v.citations == [] && !v.clarifies
         && if heard != [] && heard[|heard| - 1].ErrorEvent? then
              var error := Some(heard[|heard| - 1].code);
              v.done && v.status == Failed && v.errorCode == error && v.message == error
            else !v.done && v.status == status && v.errorCode == None && v.message == None
  }

  predicate Over(heard: Stream) {
    heard != [] && (heard[|heard| - 1].FinalEvent? || heard[|heard| - 1].ErrorEvent?)
  }

  /** The outcome is heard last. */
  lemma {:induction false} HeardOnce(stream: Stream)
    ensures forall k :: 0 <= k < |Heard(stream)| - 1 ==> !Heard(stream)[k].FinalEvent? && !Heard(stream)[k].ErrorEvent?
    ensures Over(Heard(stream)) <==> exists e <- Heard(stream) :: e.FinalEvent? || e.ErrorEvent?
    decreases |stream|
  {
    if stream != [] { HeardOnce(stream[..|stream| - 1]); }
  }

  lemma SeeIs(heard: Stream, v: View, e: Event)
    requires !Over(heard) && ViewIs(heard, v)
    ensures ViewIs(heard + [e], See(v, e))
  {
    assert (heard + [e])[..|heard|] == heard;
    assert Steps(heard) + [] == Steps(heard) && Deltas(heard) + "" == Deltas(heard);
  }

  /** What one pass over a stream shows is what the entries up to its outcome say; and by
      `ReconnectsAreInvisible` that is what any number of connections show. */
  lemma {:induction false} ShownIs(stream: Stream)
    ensures ViewIs(Heard(stream), Shown(stream))
    decreases |stream|
  {
    if stream != [] {
      var rest, last := stream[..|stream| - 1], stream[|stream| - 1];
      ShownIs(rest);
      HeardOnce(rest);
      if Over(Heard(rest)) {
        assert Shown(rest).done;
      } else {
        SeeIs(Heard(rest), Shown(rest), last);
        assert !Shown(rest).done;
      }
    }
  }
}
