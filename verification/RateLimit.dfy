/** Fixed-window request limits per client address and per session, counted in a store whose entries
    expire. */
module RateLimit {
  import opened Options

  /** A counter and when it expires, if it does. */
  datatype Counter = Counter(count: nat, expires: Option<real>)

  /** Counters by scope key and window. */
  type Counters = map<(string, int), Counter>

  datatype Limits = Limits(perIp: int, perSession: int)

  /** Who asks; an empty text when unknown. */
  datatype Caller = Caller(ip: string, session: string)

  datatype ScopeKind = Ip | Session

  datatype Scope = Scope(kind: ScopeKind, key: string, limit: int)

  datatype Decision = Decision(allowed: bool, scope: Option<ScopeKind>, limit: int, remaining: int, retryAfter: int)

  const Unlimited := Decision(true, None, 0, 0, 0)

  function WindowOf(now: real): int { (now / 60.0).Floor }

  function WindowEnd(w: int): real { 60.0 * (w + 1) as real }

  function ScopesOf(caller: Caller, limits: Limits): seq<Scope> {
    (if caller.ip != "" then [Scope(Ip, "ip:" + caller.ip, limits.perIp)] else [])
    + (if caller.session != "" then [Scope(Session, "session:" + caller.session, limits.perSession)] else [])
  }

  predicate Live(counters: Counters, key: (string, int), now: real) {
    key in counters && (counters[key].expires.None? || now < counters[key].expires.value)
  }

  function CountAt(counters: Counters, key: (string, int), now: real): nat {
    if Live(counters, key, now) then counters[key].count else 0
  }

  /** INCR, and EXPIRE when the counter is new or has no expiry. */
  function Hit(counters: Counters, key: string, now: real): Counters {
    var k := (key, WindowOf(now));
    var before := if Live(counters, k, now) then counters[k] else Counter(0, None);
    var unset := before.count == 0 || before.expires.None?;
    counters[k := Counter(before.count + 1, if unset then Some(now + 60.0) else before.expires)]
  }

  /** INCR alone, when the store raises before the expiry is set. */
  function Bump(counters: Counters, key: string, now: real): Counters {
    var k := (key, WindowOf(now));
    var before := if Live(counters, k, now) then counters[k] else Counter(0, None);
    counters[k := Counter(before.count + 1, before.expires)]
  }

  function HitAll(counters: Counters, scopes: seq<Scope>, now: real): Counters
    decreases |scopes|
  {
    if scopes == [] then counters else HitAll(Hit(counters, scopes[0].key, now), scopes[1..], now)
  }

  function ResetIn(now: real): int {
    var left := (WindowEnd(WindowOf(now)) - now).Floor;
    if left == 0 then 1 else left
  }

  /** The count each scope saw. */
  function Seen(counters: Counters, scopes: seq<Scope>, now: real): seq<nat>
    decreases |scopes|
  {
    if scopes == [] then []
    else
      var after := Hit(counters, scopes[0].key, now);
      [CountAt(after, (scopes[0].key, WindowOf(now)), now)] + Seen(after, scopes[1..], now)
  }

  /** The first scope over its limit, from the `i`th on. */
  function FirstOver(scopes: seq<Scope>, seen: seq<nat>, i: nat): (over: Option<nat>)
    requires |scopes| == |seen| && i <= |scopes|
    ensures over.Some? ==> i <= over.value < |scopes| && seen[over.value] > scopes[over.value].limit
    ensures over.None? ==> forall k :: i <= k < |scopes| ==> seen[k] <= scopes[k].limit
    decreases |scopes| - i
  {
    if i == |scopes| then None else if seen[i] > scopes[i].limit then Some(i) else FirstOver(scopes, seen, i + 1)
  }

  function Remaining(scope: Scope, seen: nat): int { if scope.limit > seen then scope.limit - seen else 0 }

  /** The first scope with the least remaining. */
  function Tightest(scopes: seq<Scope>, seen: seq<nat>, upto: nat): nat
    requires |scopes| == |seen| && 0 < upto <= |scopes|
    ensures Tightest(scopes, seen, upto) < upto
  {
    if upto == 1 then 0
    else
      var best := Tightest(scopes, seen, upto - 1);
      if Remaining(scopes[upto - 1], seen[upto - 1]) < Remaining(scopes[best], seen[best]) then upto - 1 else best
  }

  lemma {:induction false} SeenLength(counters: Counters, scopes: seq<Scope>, now: real)
    ensures |Seen(counters, scopes, now)| == |scopes|
    decreases |scopes|
  {
    if scopes != [] { SeenLength(Hit(counters, scopes[0].key, now), scopes[1..], now); }
  }

  function DecisionOf(scopes: seq<Scope>, seen: seq<nat>, now: real): Decision
    requires |scopes| == |seen|
  {
    if scopes == [] then Unlimited
    else
      match FirstOver(scopes, seen, 0)
      case Some(i) => Decision(false, Some(scopes[i].kind), scopes[i].limit, 0, ResetIn(now))
      case None =>
        var i := Tightest(scopes, seen, |scopes|);
        Decision(true, None, scopes[i].limit, Remaining(scopes[i], seen[i]), ResetIn(now))
  }

  function Decided(counters: Counters, caller: Caller, limits: Limits, now: real): Decision {
    var scopes := ScopesOf(caller, limits);
    SeenLength(counters, scopes, now);
    DecisionOf(scopes, Seen(counters, scopes, now), now)
  }

  // --- A store that raises ----------------------------------------------------------------------------------

  /** The store raises at some scope: before it counts, between counting and setting the expiry, or
      after both. */
  datatype Stage = BeforeIncr | BeforeExpire | AfterExpire

  datatype Fault = Fault(scope: nat, stage: Stage)

  /** The scopes that a check counts. */
  function Counted(scopes: seq<Scope>, fault: Option<Fault>): seq<Scope> {
    if Answers(scopes, fault) then scopes
    else scopes[..if fault.value.stage.BeforeIncr? then fault.value.scope else fault.value.scope + 1]
  }

  /** The scopes whose counter it also leaves with an expiry. */
  function Completed(scopes: seq<Scope>, fault: Option<Fault>): seq<Scope> {
    if Answers(scopes, fault) then scopes
    else scopes[..if fault.value.stage.AfterExpire? then fault.value.scope + 1 else fault.value.scope]
  }

  function Effect(counters: Counters, scopes: seq<Scope>, fault: Option<Fault>, now: real): Counters {
    var hit := HitAll(counters, Completed(scopes, fault), now);
    if |Counted(scopes, fault)| > |Completed(scopes, fault)| then Bump(hit, scopes[fault.value.scope].key, now) else hit
  }

  /** The store answers at every scope. */
  predicate Answers(scopes: seq<Scope>, fault: Option<Fault>) { fault.None? || fault.value.scope >= |scopes| }

  /** A check that meets a fault lets the request through. */
  function Checked(counters: Counters, caller: Caller, limits: Limits, now: real,
                   fault: Option<Fault>): (Counters, Decision) {
    var scopes := ScopesOf(caller, limits);
    (Effect(counters, scopes, fault, now),
     if Answers(scopes, fault) then Decided(counters, caller, limits, now) else Unlimited)
  }

  /** The counter store. */
  class Limiter {
    const limits: Limits
    var counters: Counters

    constructor (limits: Limits)
      ensures this.limits == limits && counters == map[]
    {
      this.limits, counters := limits, map[];
    }

    method HitKey(key: string, now: real, stage: Option<Stage>) returns (raised: bool, count: nat, resetIn: int)
      modifies this
      ensures raised <==> stage.Some?
      ensures counters == match stage
        case Some(BeforeIncr) => old(counters)
        case Some(BeforeExpire) => Bump(old(counters), key, now)
        case _ => Hit(old(counters), key, now)
      ensures !raised ==> count == CountAt(counters, (key, WindowOf(now)), now) && resetIn == ResetIn(now)
    {
      raised, count, resetIn := stage.Some?, 0, 0;
      if stage == Some(BeforeIncr) { return; }
      var k := (key, WindowOf(now));
      var before := if Live(counters, k, now) then counters[k] else Counter(0, None);
      count := before.count + 1;
      counters := counters[k := before.(count := count)];
      if stage == Some(BeforeExpire) { return; }
      if count == 1 || before.expires.None? { counters := counters[k := Counter(count, Some(now + 60.0))]; }
      if stage == Some(AfterExpire) { return; }
      var left := (WindowEnd(WindowOf(now)) - now).Floor;
      resetIn := if left == 0 then 1 else left;
    }

    method Check(caller: Caller, now: real, fault: Option<Fault>) returns (decision: Decision)
      modifies this
      ensures (counters, decision) == Checked(old(counters), caller, limits, now, fault)
    {
      hide Hit, Bump, ResetIn, CountAt, HitAll, Seen, ScopesOf, FirstOver, Tightest, DecisionOf, WindowOf;
      var scopes := ScopesOf(caller, limits);
      SeenLength(old(counters), scopes, now);
      CheckStep(counters, scopes, 0, now);
      if scopes == [] {
        NobodyLimited(Seen(counters, scopes, now), now);
        return Unlimited;
      }
      ghost var seen := Seen(counters, scopes, now);
      var rejected: Option<Decision> := None;
      var remainingAllowed := (0, 0, 0);
      assert scopes[0..] == scopes && seen[0..] == seen && scopes[..0] == [];
      for i := 0 to |scopes|
        invariant fault.Some? ==> i <= fault.value.scope
        invariant counters == HitAll(old(counters), scopes[..i], now)
        invariant HitAll(counters, scopes[i..], now) == HitAll(old(counters), scopes, now)
        invariant Seen(counters, scopes[i..], now) == seen[i..]
        invariant rejected.None? ==> FirstOver(scopes, seen, 0) == FirstOver(scopes, seen, i)
        invariant rejected.Some? ==> rejected.value == DecisionOf(scopes, seen, now)
        invariant i > 0 ==> var t := Tightest(scopes, seen, i);
          remainingAllowed == (scopes[t].limit, Remaining(scopes[t], seen[t]), ResetIn(now))
      {
        assert scopes[..i + 1] == scopes[..i] + [scopes[i]];
        HitNext(old(counters), scopes[..i], scopes[i], now);
        CheckStep(counters, scopes, i, now);
        var stage := if fault.Some? && fault.value.scope == i then Some(fault.value.stage) else None;
        var raised, count, resetIn := HitKey(scopes[i].key, now, stage);
        if raised { return Unlimited; }
        assert count == seen[i] && seen[i..][1..] == seen[i + 1..];
        WeighStep(scopes, seen, i, now);
        var remaining := if scopes[i].limit > count then scopes[i].limit - count else 0;
        if count > scopes[i].limit && rejected.None? {
          rejected := Some(Decision(false, Some(scopes[i].kind), scopes[i].limit, 0, resetIn));
        }
        if i == 0 || remaining < remainingAllowed.1 { remainingAllowed := (scopes[i].limit, remaining, resetIn); }
      }
      assert scopes[..|scopes|] == scopes;
      CheckStep(counters, scopes, |scopes|, now);
      AllWeighed(scopes, seen, now);
      if rejected.Some? { return rejected.value; }
      decision := Decision(true, None, remainingAllowed.0, remainingAllowed.1, remainingAllowed.2);
    }
  }

  /** What scope `i` adds to the verdict and to the tightest scope so far. */
  lemma WeighStep(scopes: seq<Scope>, seen: seq<nat>, i: nat, now: real)
    requires |scopes| == |seen| && i < |scopes|
    ensures FirstOver(scopes, seen, i) == if seen[i] > scopes[i].limit then Some(i) else FirstOver(scopes, seen, i + 1)
    ensures FirstOver(scopes, seen, 0) == Some(i) ==>
      DecisionOf(scopes, seen, now) == Decision(false, Some(scopes[i].kind), scopes[i].limit, 0, ResetIn(now))
    ensures i == 0 ==> Tightest(scopes, seen, i + 1) == 0
    ensures i > 0 ==>
      var best := Tightest(scopes, seen, i);
      Tightest(scopes, seen, i + 1)
          == if Remaining(scopes[i], seen[i]) < Remaining(scopes[best], seen[best]) then i else best
  {
    hide ResetIn;
  }

  lemma AllWeighed(scopes: seq<Scope>, seen: seq<nat>, now: real)
    requires |scopes| == |seen| && scopes != []
    ensures FirstOver(scopes, seen, |scopes|) == None
    ensures FirstOver(scopes, seen, 0) == None ==>
      var t := Tightest(scopes, seen, |scopes|);
      DecisionOf(scopes, seen, now)
          == Decision(true, None, scopes[t].limit, Remaining(scopes[t], seen[t]), ResetIn(now))
  {
    hide ResetIn;
  }

  lemma CheckStep(counters: Counters, scopes: seq<Scope>, i: nat, now: real)
    requires i <= |scopes|
    ensures i == |scopes| ==> HitAll(counters, scopes[i..], now) == counters && Seen(counters, scopes[i..], now) == []
    ensures i < |scopes| ==>
      var after := Hit(counters, scopes[i].key, now);
      && HitAll(counters, scopes[i..], now) == HitAll(after, scopes[i + 1..], now)
      && Seen(counters, scopes[i..], now)
          == [CountAt(after, (scopes[i].key, WindowOf(now)), now)] + Seen(after, scopes[i + 1..], now)
    ensures HitAll(counters, [], now) == counters
  {
    hide Hit, CountAt;
    if i < |scopes| { assert scopes[i..][0] == scopes[i] && scopes[i..][1..] == scopes[i + 1..]; }
  }

  lemma {:induction false} HitNext(counters: Counters, scopes: seq<Scope>, scope: Scope, now: real)
    ensures HitAll(counters, scopes + [scope], now) == Hit(HitAll(counters, scopes, now), scope.key, now)
    decreases |scopes|
  {
    hide Hit;
    if scopes == [] {
      assert scopes + [scope] == [scope] && [scope][1..] == [];
      assert HitAll(Hit(counters, scope.key, now), [scope][1..], now) == Hit(counters, scope.key, now);
    } else {
      assert (scopes + [scope])[0] == scopes[0] && (scopes + [scope])[1..] == scopes[1..] + [scope];
      HitNext(Hit(counters, scopes[0].key, now), scopes[1..], scope, now);
    }
  }

  // --- Histories of checks --------------------------------------------------------------------------------

  /** One check, at a time read off the one clock, and the fault it meets, if any. */
  datatype Attempt = Attempt(now: real, caller: Caller, fault: Option<Fault>)

  function After(limits: Limits, history: seq<Attempt>): Counters
    decreases |history|
  {
    if history == [] then map[]
    else
      var last := history[|history| - 1];
      Checked(After(limits, history[..|history| - 1]), last.caller, limits, last.now, last.fault).0
  }

  predicate Keyed(scopes: seq<Scope>, key: string) { exists k :: 0 <= k < |scopes| && scopes[k].key == key }

  /** The check counts `key` in window `w`. */
  predicate Asks(limits: Limits, a: Attempt, key: string, w: int) {
    WindowOf(a.now) == w && Keyed(Counted(ScopesOf(a.caller, limits), a.fault), key)
  }

  /** And gets as far as its expiry. */
  predicate Sets(limits: Limits, a: Attempt, key: string, w: int) {
    WindowOf(a.now) == w && Keyed(Completed(ScopesOf(a.caller, limits), a.fault), key)
  }

  /** How often `key` was counted in window `w`. */
  function Asked(limits: Limits, history: seq<Attempt>, key: string, w: int): nat
    decreases |history|
  {
    if history == [] then 0
    else
      Asked(limits, history[..|history| - 1], key, w) + if Asks(limits, history[|history| - 1], key, w) then 1 else 0
  }

  predicate EverSet(limits: Limits, history: seq<Attempt>, key: string, w: int)
    decreases |history|
  {
    history != [] && (EverSet(limits, history[..|history| - 1], key, w) || Sets(limits, history[|history| - 1], key, w))
  }

  lemma {:induction false} EverSetIff(limits: Limits, history: seq<Attempt>, key: string, w: int)
    ensures EverSet(limits, history, key, w) <==> exists k :: 0 <= k < |history| && Sets(limits, history[k], key, w)
    decreases |history|
  {
    hide Sets;
    if history != [] { EverSetIff(limits, history[..|history| - 1], key, w); }
  }

  /** How often a caller counted under `key` was let through by a store that answered, among the
      attempts that `p` picks. */
  function Allowed(limits: Limits, history: seq<Attempt>, key: string, p: real -> bool): nat
    decreases |history|
  {
    if history == [] then 0
    else
      var rest, last := history[..|history| - 1], history[|history| - 1];
      Allowed(limits, rest, key, p)
      + if p(last.now) && Answers(ScopesOf(last.caller, limits), last.fault)
          && Keyed(ScopesOf(last.caller, limits), key)
             && Decided(After(limits, rest), last.caller, limits, last.now).allowed
        then 1 else 0
  }

  lemma WindowBounds(now: real)
    ensures 60.0 * WindowOf(now) as real <= now < WindowEnd(WindowOf(now))
  {
  }

  /** A counter says how often its key was counted in its window. Once an expiry was set it lives at
      least to the window's end; until then it has none. */
  predicate CounterOk(counters: Counters, key: string, w: int, asked: nat, expiring: bool) {
    if asked == 0 then (key, w) !in counters
    else
      && (key, w) in counters && counters[(key, w)].count == asked
      && if expiring then counters[(key, w)].expires.Some? && counters[(key, w)].expires.value >= WindowEnd(w)
         else counters[(key, w)].expires.None?
  }

  lemma HitCounts(counters: Counters, key: string, now: real, w: int, other: string, asked: nat, expiring: bool)
    requires CounterOk(counters, other, w, asked, expiring)
    ensures var here := key == other && w == WindowOf(now);
      CounterOk(Hit(counters, key, now), other, w, asked + if here then 1 else 0, expiring || here)
  {
    WindowBounds(now);
  }

  lemma BumpCounts(counters: Counters, key: string, now: real, w: int, other: string, asked: nat, expiring: bool)
    requires CounterOk(counters, other, w, asked, expiring) && (asked == 0 ==> !expiring)
    ensures var here := key == other && w == WindowOf(now);
      CounterOk(Bump(counters, key, now), other, w, asked + if here then 1 else 0, expiring)
  {
    WindowBounds(now);
  }

  predicate DistinctKeys(scopes: seq<Scope>) {
    forall j, k :: 0 <= j < k < |scopes| ==> scopes[j].key != scopes[k].key
  }

  lemma ScopesDistinct(caller: Caller, limits: Limits)
    ensures DistinctKeys(ScopesOf(caller, limits))
  {
    var a, b := "ip:" + caller.ip, "session:" + caller.session;
    assert a[0] == 'i' && b[0] == 's';
  }

  lemma {:induction false} HitAllCounts(counters: Counters, scopes: seq<Scope>, now: real, w: int, key: string,
                                        asked: nat, expiring: bool)
    requires CounterOk(counters, key, w, asked, expiring) && DistinctKeys(scopes)
    ensures var here := Keyed(scopes, key) && w == WindowOf(now);
      CounterOk(HitAll(counters, scopes, now), key, w, asked + if here then 1 else 0, expiring || here)
    decreases |scopes|
  {
    hide CounterOk, Hit, WindowOf;
    if scopes != [] {
      var first, rest := scopes[0], scopes[1..];
      assert forall k :: 0 <= k < |rest| ==> rest[k] == scopes[k + 1];
      HitCounts(counters, first.key, now, w, key, asked, expiring);
      KeyedFirst(scopes, key);
      var here := first.key == key && w == WindowOf(now);
      HitAllCounts(Hit(counters, first.key, now), rest, now, w, key, asked + if here then 1 else 0, expiring || here);
    }
  }

  lemma KeyedFirst(scopes: seq<Scope>, key: string)
    requires scopes != [] && DistinctKeys(scopes)
    ensures Keyed(scopes, key) <==> scopes[0].key == key || Keyed(scopes[1..], key)
    ensures scopes[0].key == key ==> !Keyed(scopes[1..], key)
  {
    var rest := scopes[1..];
    assert forall k :: 0 <= k < |rest| ==> rest[k] == scopes[k + 1];
    if k :| 0 <= k < |rest| && rest[k].key == key { assert scopes[k + 1].key == key; }
  }

  /** What a check counts is what it completes, and the one scope at which the store raised after it
      had counted. */
  lemma CountedSplit(scopes: seq<Scope>, fault: Option<Fault>, key: string)
    requires DistinctKeys(scopes)
    ensures DistinctKeys(Completed(scopes, fault))
    ensures var between := |Counted(scopes, fault)| > |Completed(scopes, fault)|;
      && (between ==> fault.Some? && fault.value.scope < |scopes|)
      && (Keyed(Counted(scopes, fault), key)
          <==> Keyed(Completed(scopes, fault), key) || (between && scopes[fault.value.scope].key == key))
      && (between && scopes[fault.value.scope].key == key ==> !Keyed(Completed(scopes, fault), key))
  {
    var counted, completed := Counted(scopes, fault), Completed(scopes, fault);
    if |counted| > |completed| {
      assert counted == completed + [scopes[fault.value.scope]];
      assert counted[|completed|] == scopes[fault.value.scope];
    } else {
      assert counted == completed;
    }
    if k :| 0 <= k < |completed| && completed[k].key == key && k < |counted| { assert counted[k].key == key; }
  }

  lemma AttemptCounts(limits: Limits, counters: Counters, a: Attempt, key: string, w: int, asked: nat, expiring: bool)
    requires CounterOk(counters, key, w, asked, expiring) && (asked == 0 ==> !expiring)
    ensures CounterOk(Checked(counters, a.caller, limits, a.now, a.fault).0, key, w,
                      asked + if Asks(limits, a, key, w) then 1 else 0, expiring || Sets(limits, a, key, w))
    ensures Sets(limits, a, key, w) ==> Asks(limits, a, key, w)
  {
    hide CounterOk, WindowOf, HitAll, Bump, Keyed, Counted, Completed, DistinctKeys, ScopesOf, Decided;
    var scopes := ScopesOf(a.caller, limits);
    ScopesDistinct(a.caller, limits);
    CountedSplit(scopes, a.fault, key);
    HitAllCounts(counters, Completed(scopes, a.fault), a.now, w, key, asked, expiring);
    if |Counted(scopes, a.fault)| > |Completed(scopes, a.fault)| {
      var hit := HitAll(counters, Completed(scopes, a.fault), a.now);
      var here := Keyed(Completed(scopes, a.fault), key) && w == WindowOf(a.now);
      BumpCounts(hit, scopes[a.fault.value.scope].key, a.now, w, key, asked + if here then 1 else 0, expiring || here);
    }
  }

  /** Over every history, faults included: a counter counts the checks that reached it under its key in
      its window, rejected or not, and it does not expire before its window ends. */
  lemma {:induction false} CountersCount(limits: Limits, history: seq<Attempt>, key: string, w: int)
    ensures CounterOk(After(limits, history), key, w, Asked(limits, history, key, w), EverSet(limits, history, key, w))
    ensures Asked(limits, history, key, w) == 0 ==> !EverSet(limits, history, key, w)
    decreases |history|
  {
    hide CounterOk, Checked, Asks, Sets;
    if history == [] {
      NoCounter(key, w);
    } else {
      var rest, last := history[..|history| - 1], history[|history| - 1];
      CountersCount(limits, rest, key, w);
      AttemptCounts(limits, After(limits, rest), last, key, w, Asked(limits, rest, key, w),
          EverSet(limits, rest, key, w));
    }
  }

  lemma NoCounter(key: string, w: int)
    ensures CounterOk(map[], key, w, 0, false)
  {
  }

  /** A counter stands without an expiry, for good once its window is over, if and only if its key was
      counted in the window and every one of those checks was cut off before the expiry was set. */
  lemma ImmortalIff(limits: Limits, history: seq<Attempt>, key: string, w: int)
    ensures (key, w) in After(limits, history) && After(limits, history)[(key, w)].expires.None?
      <==> Asked(limits, history, key, w) > 0 && forall k :: 0 <= k < |history| ==> !Sets(limits, history[k], key, w)
  {
    hide After, Asked, Sets;
    EverSetIff(limits, history, key, w);
    CountersCount(limits, history, key, w);
  }

  /** One such check is enough. */
  lemma LeftImmortal(limits: Limits)
    ensures var counters := After(limits, [Attempt(0.0, Caller("a", ""), Some(Fault(0, BeforeExpire)))]);
      ("ip:a", 0) in counters && counters[("ip:a", 0)] == Counter(1, None)
  {
    var caller := Caller("a", "");
    var a := Attempt(0.0, caller, Some(Fault(0, BeforeExpire)));
    assert [a][..0] == [] && After(limits, []) == map[];
    assert ScopesOf(caller, limits) == [Scope(Ip, "ip:" + "a", limits.perIp)] && "ip:" + "a" == "ip:a";
    assert Completed(ScopesOf(caller, limits), a.fault) == [] && |Counted(ScopesOf(caller, limits), a.fault)| == 1;
    assert WindowOf(0.0) == 0;
  }

  // --- The limits ----------------------------------------------------------------------------------------

  /** The count a scope sees is the number of checks under its key in the window, this one included. */
  lemma {:induction false} SeenIs(counters: Counters, scopes: seq<Scope>, now: real, k: nat, asked: nat, expiring: bool)
    requires k < |scopes| && DistinctKeys(scopes) && CounterOk(counters, scopes[k].key, WindowOf(now), asked, expiring)
    ensures |Seen(counters, scopes, now)| == |scopes| && Seen(counters, scopes, now)[k] == asked + 1
    decreases k
  {
    SeenLength(counters, scopes, now);
    WindowBounds(now);
    HitCounts(counters, scopes[0].key, now, WindowOf(now), scopes[k].key, asked, expiring);
    if k > 0 {
      assert forall j :: 0 <= j < |scopes[1..]| ==> scopes[1..][j] == scopes[j + 1];
      assert scopes[0].key != scopes[k].key;
      SeenIs(Hit(counters, scopes[0].key, now), scopes[1..], now, k - 1, asked, expiring);
    }
  }

  function LimitOf(key: string, limits: Limits): int {
    if key != "" && key[0] == 'i' then limits.perIp else limits.perSession
  }

  lemma ScopeLimit(caller: Caller, limits: Limits, k: nat)
    requires k < |ScopesOf(caller, limits)|
    ensures ScopesOf(caller, limits)[k].limit == LimitOf(ScopesOf(caller, limits)[k].key, limits)
  {
    var a, b := "ip:" + caller.ip, "session:" + caller.session;
    assert a[0] == 'i' && b[0] == 's';
  }

  lemma AllowedSeen(scopes: seq<Scope>, seen: seq<nat>, now: real)
    requires |scopes| == |seen| && scopes != []
    ensures DecisionOf(scopes, seen, now).allowed <==> forall k :: 0 <= k < |scopes| ==> seen[k] <= scopes[k].limit
  {
  }

  /** A request is let through exactly when neither of its keys has had its limit in this window. */
  lemma AllowedIff(limits: Limits, history: seq<Attempt>, a: Attempt)
    ensures Decided(After(limits, history), a.caller, limits, a.now).allowed <==>
      forall k :: 0 <= k < |ScopesOf(a.caller, limits)| ==>
        Asked(limits, history, ScopesOf(a.caller, limits)[k].key, WindowOf(a.now)) < ScopesOf(a.caller, limits)[k].limit
  {
    hide ScopesOf, WindowOf, Checked, Hit, Asked, EverSet, DecisionOf, Seen, CounterOk;
    var scopes, counters := ScopesOf(a.caller, limits), After(limits, history);
    ScopesDistinct(a.caller, limits);
    SeenLength(counters, scopes, a.now);
    var seen := Seen(counters, scopes, a.now);
    forall k | 0 <= k < |scopes| ensures seen[k] == Asked(limits, history, scopes[k].key, WindowOf(a.now)) + 1 {
      CountersCount(limits, history, scopes[k].key, WindowOf(a.now));
      SeenIs(counters, scopes, a.now, k, Asked(limits, history, scopes[k].key, WindowOf(a.now)),
             EverSet(limits, history, scopes[k].key, WindowOf(a.now)));
    }
    if scopes == [] {
      NobodyLimited(seen, a.now);
    } else {
      AllowedSeen(scopes, seen, a.now);
    }
  }

  lemma NobodyLimited(seen: seq<nat>, now: real)
    requires seen == []
    ensures DecisionOf([], seen, now) == Unlimited
  {
  }

  /** In an aligned window no key is let through more often than its limit. */
  lemma {:induction false} WindowLimit(limits: Limits, history: seq<Attempt>, key: string, w: int)
    ensures Allowed(limits, history, key, t => WindowOf(t) == w) <= Asked(limits, history, key, w)
    ensures LimitOf(key, limits) >= 0 ==> Allowed(limits, history, key, t => WindowOf(t) == w) <= LimitOf(key, limits)
    ensures LimitOf(key, limits) < 0 ==> Allowed(limits, history, key, t => WindowOf(t) == w) == 0
    decreases |history|
  {
    hide ScopesOf, WindowOf, Decided, After, LimitOf;
    if history != [] {
      var rest, last := history[..|history| - 1], history[|history| - 1];
      WindowLimit(limits, rest, key, w);
      AllowedIff(limits, rest, last);
      if WindowOf(last.now) == w && Keyed(ScopesOf(last.caller, limits), key) {
        var k :| 0 <= k < |ScopesOf(last.caller, limits)| && ScopesOf(last.caller, limits)[k].key == key;
        ScopeLimit(last.caller, limits, k);
      }
    }
  }

  /** Any stretch of a minute meets at most two aligned windows. */
  lemma TwoWindows(from: real, t: real)
    requires from <= t <= from + 60.0
    ensures WindowOf(t) == WindowOf(from) || WindowOf(t) == WindowOf(from) + 1
  {
    WindowBounds(from);
    WindowBounds(t);
  }

  lemma {:induction false} SplitAllowed(limits: Limits, history: seq<Attempt>, key: string, from: real)
    ensures Allowed(limits, history, key, t => from <= t <= from + 60.0)
         <= Allowed(limits, history, key, t => WindowOf(t) == WindowOf(from))
          + Allowed(limits, history, key, t => WindowOf(t) == WindowOf(from) + 1)
    decreases |history|
  {
    hide ScopesOf, WindowOf, Decided, After;
    if history != [] {
      SplitAllowed(limits, history[..|history| - 1], key, from);
      var last := history[|history| - 1];
      if from <= last.now <= from + 60.0 { TwoWindows(from, last.now); }
    }
  }

  /** In any sixty seconds no key is let through more than twice its limit. */
  lemma MinuteLimit(limits: Limits, history: seq<Attempt>, key: string, from: real)
    requires LimitOf(key, limits) >= 0
    ensures Allowed(limits, history, key, t => from <= t <= from + 60.0) <= 2 * LimitOf(key, limits)
  {
    hide Allowed, WindowOf, LimitOf;
    SplitAllowed(limits, history, key, from);
    WindowLimit(limits, history, key, WindowOf(from));
    WindowLimit(limits, history, key, WindowOf(from) + 1);
  }
}
