/** What a caller is told: whether a request passes, which limit refused it, what is left and until when. */
module RateDecisions {
  import opened Options
  import opened RateLimit

  /** The minute's start, when `now` is in it. */
  predicate Minute(now: real, minute: int) { minute as real * 60.0 <= now < minute as real * 60.0 + 60.0 }

  /** Seconds until the minute ends, rounded down, but never none. */
  ghost predicate Resets(now: real, seconds: int) {
    exists minute: int :: Minute(now, minute)
      && var left := minute as real * 60.0 + 60.0 - now;
         if left < 1.0 then seconds == 1 else seconds as real <= left < seconds as real + 1.0
  }

  /** What the scope's counter stands at once this request is counted. */
  function CountOf(counters: Counters, scope: Scope, now: real): nat {
    1 + CountAt(counters, (scope.key, WindowOf(now)), now)
  }

  function Left(counters: Counters, scope: Scope, now: real): int {
    var left := scope.limit - CountOf(counters, scope, now);
    if left < 0 then 0 else left
  }

  ghost predicate Over(counters: Counters, scope: Scope, now: real) { CountOf(counters, scope, now) > scope.limit }

  /** The scopes a caller is counted under: its address and its session, as far as they are known. */
  predicate ScopesAre(caller: Caller, limits: Limits, scopes: seq<Scope>) {
    var ip := Scope(Ip, "ip:" + caller.ip, limits.perIp);
    var session := Scope(Session, "session:" + caller.session, limits.perSession);
    if caller.ip != "" && caller.session != "" then scopes == [ip, session]
    else if caller.ip != "" then scopes == [ip]
    else if caller.session != "" then scopes == [session]
    else scopes == []
  }

  /** Nobody to count: nothing is limited. A scope over its limit refuses, the first one by name;
      otherwise the one with the least left, the first of equals, is what the caller is told. */
  ghost predicate DecisionIs(counters: Counters, scopes: seq<Scope>, now: real, d: Decision) {
    if scopes == [] then d == Decision(true, None, 0, 0, 0)
    else
      && Resets(now, d.retryAfter)
      && if exists k :: 0 <= k < |scopes| && Over(counters, scopes[k], now) then
           exists k :: 0 <= k < |scopes| && Over(counters, scopes[k], now)
             && (forall j :: 0 <= j < k ==> !Over(counters, scopes[j], now))
             && !d.allowed && d.scope == Some(scopes[k].kind) && d.limit == scopes[k].limit && d.remaining == 0
         else
           exists k :: 0 <= k < |scopes| && d.allowed && d.scope == None
             && d.limit == scopes[k].limit && d.remaining == Left(counters, scopes[k], now)
             && (forall j :: 0 <= j < |scopes| ==> d.remaining <= Left(counters, scopes[j], now))
             && forall j :: 0 <= j < k ==> d.remaining < Left(counters, scopes[j], now)
  }

  lemma ResetIs(now: real)
    ensures Resets(now, ResetIn(now))
  {
    var w := WindowOf(now);
    assert w as real <= now / 60.0 < w as real + 1.0;
    assert now == now / 60.0 * 60.0;
    assert WindowEnd(w) == w as real * 60.0 + 60.0 && Minute(now, w);
  }

  lemma HitCounts(counters: Counters, key: string, now: real)
    ensures CountAt(Hit(counters, key, now), (key, WindowOf(now)), now)
         == 1 + CountAt(counters, (key, WindowOf(now)), now)
    ensures forall other :: other != key ==>
      CountAt(Hit(counters, key, now), (other, WindowOf(now)), now) == CountAt(counters, (other, WindowOf(now)), now)
  {
  }

  /** Each scope sees its own count, since no two have one key. */
  lemma {:induction false} SeenIs(counters: Counters, scopes: seq<Scope>, now: real)
    requires DistinctKeys(scopes)
    ensures |Seen(counters, scopes, now)| == |scopes|
    ensures forall k :: 0 <= k < |scopes| ==> Seen(counters, scopes, now)[k] == CountOf(counters, scopes[k], now)
    decreases |scopes|
  {
    hide Hit, CountAt;
    if scopes != [] {
      var key, after := scopes[0].key, Hit(counters, scopes[0].key, now);
      HitCounts(counters, key, now);
      assert forall k :: 0 <= k < |scopes[1..]| ==> scopes[1..][k] == scopes[k + 1];
      SeenIs(after, scopes[1..], now);
      forall k | 0 <= k < |scopes| ensures Seen(counters, scopes, now)[k] == CountOf(counters, scopes[k], now) {
        if k > 0 {
          assert scopes[k].key != key && Seen(counters, scopes, now)[k] == Seen(after, scopes[1..], now)[k - 1];
          assert scopes[1..][k - 1] == scopes[k];
        }
      }
    }
  }

  lemma {:induction false} LeastLeft(scopes: seq<Scope>, seen: seq<nat>, upto: nat)
    requires |scopes| == |seen| && 0 < upto <= |scopes|
    ensures var k := Tightest(scopes, seen, upto);
      && (forall j :: 0 <= j < upto ==> Remaining(scopes[k], seen[k]) <= Remaining(scopes[j], seen[j]))
      && forall j :: 0 <= j < k ==> Remaining(scopes[k], seen[k]) < Remaining(scopes[j], seen[j])
    decreases upto
  {
    hide Remaining;
    if upto > 1 { LeastLeft(scopes, seen, upto - 1); }
  }

  lemma {:induction false} FirstIs(scopes: seq<Scope>, seen: seq<nat>, i: nat)
    requires |scopes| == |seen| && i <= |scopes|
    ensures FirstOver(scopes, seen, i).Some? ==>
      forall k :: i <= k < FirstOver(scopes, seen, i).value ==> seen[k] <= scopes[k].limit
    decreases |scopes| - i
  {
    if i < |scopes| && seen[i] <= scopes[i].limit { FirstIs(scopes, seen, i + 1); }
  }

  lemma KeysApart(caller: Caller, limits: Limits)
    ensures ScopesAre(caller, limits, ScopesOf(caller, limits)) && DistinctKeys(ScopesOf(caller, limits))
  {
    var ip, session := "ip:" + caller.ip, "session:" + caller.session;
    assert ip[0] != session[0];
  }

  lemma DecidedIs(counters: Counters, scopes: seq<Scope>, seen: seq<nat>, now: real)
    requires |scopes| == |seen| && forall k :: 0 <= k < |scopes| ==> seen[k] == CountOf(counters, scopes[k], now)
    ensures DecisionIs(counters, scopes, now, DecisionOf(scopes, seen, now))
  {
    hide CountOf, ResetIn, Resets;
    ResetIs(now);
    FirstIs(scopes, seen, 0);
    if scopes != [] && FirstOver(scopes, seen, 0).None? {
      LeastLeft(scopes, seen, |scopes|);
      assert forall k :: 0 <= k < |scopes| ==> Remaining(scopes[k], seen[k]) == Left(counters, scopes[k], now);
    }
  }

  /** What a caller is told when the store answers; when it raises, nothing is limited. */
  lemma EveryDecision(counters: Counters, caller: Caller, limits: Limits, now: real, fault: Option<Fault>)
    ensures var d := Checked(counters, caller, limits, now, fault).1;
      exists scopes :: ScopesAre(caller, limits, scopes)
        && if fault.Some? && fault.value.scope < |scopes| then d == Decision(true, None, 0, 0, 0)
           else DecisionIs(counters, scopes, now, d)
  {
    hide DecisionIs, Seen, DecisionOf, Effect, ScopesAre, ScopesOf, DistinctKeys;
    var scopes := ScopesOf(caller, limits);
    KeysApart(caller, limits);
    SeenIs(counters, scopes, now);
    DecidedIs(counters, scopes, Seen(counters, scopes, now), now);
  }
}
