/** `InMemoryExecutionHistory`: every recorded state, kept in RAM in
    descending time order, and its filtered query. */
module History {
  import opened Values
  import opened Platform
  import opened Insort
  import opened Events

  /** The filter dictionary of `getAsync`; `None` is a key that is absent. */
  datatype Filter = Filter(
    id: Option<Id>,
    fromIds: Option<set<Id>>,
    toIds: Option<set<Id>>,
    time: Option<int>,
    value: Option<Value>,
    minTime: Option<int>,
    maxTime: Option<int>,
    minActivationTime: Option<int>,
    maxActivationTime: Option<int>,
    limit: Option<int>,
    order: Option<string>)

  const NoFilter: Filter := Filter(None, None, None, None, None, None, None, None, None, None, None)

  /** Every condition the filter sets holds of `s` (the range bounds are
      inclusive). */
  predicate Matches(f: Filter, s: State)
  {
    && (f.id.Some? ==> s.id == f.id.value)
    && (f.fromIds.Some? ==> s.fromId in f.fromIds.value)
    && (f.toIds.Some? ==> s.toId in f.toIds.value)
    && (f.time.Some? ==> s.time == f.time.value)
    && (f.value.Some? ==> s.value == f.value.value)
    && (f.minTime.Some? ==> s.time >= f.minTime.value)
    && (f.maxTime.Some? ==> s.time <= f.maxTime.value)
    && (f.minActivationTime.Some? ==> s.activationTime >= f.minActivationTime.value)
    && (f.maxActivationTime.Some? ==> s.activationTime <= f.maxActivationTime.value)
  }

  /** The matching states, in stored order. */
  function Select(ss: seq<State>, f: Filter): (r: seq<State>)
    ensures |r| <= |ss|
  {
    if ss == [] then []
    else Select(ss[..|ss| - 1], f) + (if Matches(f, ss[|ss| - 1]) then [ss[|ss| - 1]] else [])
  }

  /** The first `n` elements; none for `n <= 0`. */
  function Take<T>(s: seq<T>, n: int): (r: seq<T>)
    ensures |r| == if n <= 0 then 0 else if n < |s| then n else |s|
  {
    if n <= 0 then [] else if n < |s| then s[..n] else s
  }

  /** The result of `getAsync(f)` on the stored states. */
  function Query(ss: seq<State>, f: Filter): seq<State>
  {
    if f.limit.Some? then Take(Select(ss, f), f.limit.value) else Select(ss, f)
  }

  lemma {:induction false} SelectAppend(a: seq<State>, b: seq<State>, f: Filter)
    ensures Select(a + b, f) == Select(a, f) + Select(b, f)
    decreases |b|
  {
    if b == [] {
      assert a + b == a;
    } else {
      var b0 := b[..|b| - 1];
      assert (a + b)[..|a + b| - 1] == a + b0;
      assert (a + b)[|a + b| - 1] == b[|b| - 1];
      SelectAppend(a, b0, f);
    }
  }

  /** Every selected state is a stored state that matches, and every stored
      state that matches is selected. */
  lemma {:induction false} SelectExact(ss: seq<State>, f: Filter, x: State)
    ensures x in Select(ss, f) <==> x in ss && Matches(f, x)
    decreases |ss|
  {
    if ss != [] {
      SelectExact(ss[..|ss| - 1], f, x);
      assert ss == ss[..|ss| - 1] + [ss[|ss| - 1]];
    }
  }

  /** The selection keeps the stored order, so a selection from a list in
      descending time order is in descending time order. */
  lemma {:induction false} SelectSorted(ss: seq<State>, f: Filter)
    requires SortedDesc(ss, Time)
    ensures SortedDesc(Select(ss, f), Time)
    decreases |ss|
  {
    if ss != [] {
      var init := ss[..|ss| - 1];
      var last := ss[|ss| - 1];
      assert SortedDesc(init, Time);
      SelectSorted(init, f);
      forall y | y in Select(init, f) ensures y.time >= last.time {
        SelectExact(init, f, y);
      }
    }
  }

  /** A query returns stored states that match the filter. */
  lemma QuerySound(ss: seq<State>, f: Filter, x: State)
    requires x in Query(ss, f)
    ensures x in ss && Matches(f, x)
  {
    if f.limit.Some? && 0 < f.limit.value < |Select(ss, f)| {
      assert x in Select(ss, f);
    }
    SelectExact(ss, f, x);
  }

  /** Without a limit, a query returns every stored state that matches. */
  lemma QueryComplete(ss: seq<State>, f: Filter, x: State)
    requires f.limit.None?
    requires x in ss && Matches(f, x)
    ensures x in Query(ss, f)
  {
    SelectExact(ss, f, x);
  }

  /** With a limit `n`, a query returns the first `n` matches (none when
      `n <= 0`, all of them when there are fewer). */
  lemma QueryLimit(ss: seq<State>, f: Filter, n: int)
    requires f.limit == Some(n)
    ensures Query(ss, f) == Take(Select(ss, f.(limit := None)), n)
  {
    SelectFilterLimitIrrelevant(ss, f, None);
  }

  /** `order` is read into a reversed copy that the loop never uses, and
      `limit` is not a matching condition: neither changes which states
      match. */
  lemma {:induction false} SelectFilterLimitIrrelevant(ss: seq<State>, f: Filter, l: Option<int>)
    ensures Select(ss, f.(limit := l)) == Select(ss, f)
    decreases |ss|
  {
    if ss != [] {
      SelectFilterLimitIrrelevant(ss[..|ss| - 1], f, l);
    }
  }

  lemma {:induction false} SelectOrderIrrelevant(ss: seq<State>, f: Filter, o: Option<string>)
    ensures Select(ss, f.(order := o)) == Select(ss, f)
    decreases |ss|
  {
    if ss != [] {
      SelectOrderIrrelevant(ss[..|ss| - 1], f, o);
    }
  }

  /** The `order` filter has no effect on the result. */
  lemma QueryOrderIrrelevant(ss: seq<State>, f: Filter, o: Option<string>)
    ensures Query(ss, f.(order := o)) == Query(ss, f)
  {
    SelectOrderIrrelevant(ss, f, o);
  }

  /** The query with `limit: 1` that the explainer issues on a history in
      descending time order returns a latest matching state, and returns
      nothing only when no stored state matches. */
  lemma QueryLatest(ss: seq<State>, f: Filter)
    requires SortedDesc(ss, Time) && f.limit == Some(1)
    ensures Query(ss, f) == [] <==> forall y :: y in ss ==> !Matches(f, y)
    ensures Query(ss, f) != [] ==>
      |Query(ss, f)| == 1 && Query(ss, f)[0] in ss && Matches(f, Query(ss, f)[0]) &&
      forall y :: y in ss && Matches(f, y) ==> y.time <= Query(ss, f)[0].time
  {
    var sel := Select(ss, f);
    SelectSorted(ss, f);
    if sel == [] {
      forall y | y in ss ensures !Matches(f, y) { SelectExact(ss, f, y); }
    } else {
      assert Query(ss, f) == [sel[0]];
      SelectExact(ss, f, sel[0]);
      forall y | y in ss && Matches(f, y) ensures y.time <= sel[0].time {
        SelectExact(ss, f, y);
        var k :| 0 <= k < |sel| && sel[k] == y;
      }
    }
  }

  /** Once the loop has collected `limit` states, the states after the
      stopping point cannot change the result. */
  lemma QueryStops(ss: seq<State>, i: nat, f: Filter)
    requires i <= |ss| && f.limit.Some?
    requires |Select(ss[..i], f)| >= f.limit.value
    requires |Select(ss[..i], f)| <= f.limit.value || Select(ss[..i], f) == []
    ensures Query(ss, f) == Select(ss[..i], f)
  {
    assert ss == ss[..i] + ss[i..];
    SelectAppend(ss[..i], ss[i..], f);
  }

  class InMemoryExecutionHistory {
    /** `self.states`, later states first. */
    var states: seq<State>
    /** Every state added, in the order of the `addAsync` calls. */
    ghost var log: seq<State>

    ghost predicate Valid()
      reads this
    {
      SortedDesc(states, Time) && multiset(states) == multiset(log)
    }

    constructor ()
      ensures Valid() && states == [] && log == []
    {
      states := [];
      log := [];
    }

    /** `getAsync(filters)`: one pass over the stored states; the limit check
        comes last and ends the pass as soon as `limit` states are
        collected. */
    method Get(f: Filter) returns (res: seq<State>)
      ensures res == Query(states, f)
    {
      res := [];
      var arr := states;
      if f.order == Some("asc") {
        var st := states;
        arr := seq(|st|, k requires 0 <= k < |st| => st[|st| - 1 - k]);
      }
      var i := 0;
      while i < |states|
        invariant 0 <= i <= |states|
        invariant res == Select(states[..i], f)
        invariant f.limit.Some? ==> |res| <= f.limit.value || res == []
      {
        var s := states[i];
        assert states[..i + 1] == states[..i] + [s];
        var ok := true;
        if f.id.Some? && s.id != f.id.value { ok := false; }
        if f.fromIds.Some? && s.fromId !in f.fromIds.value { ok := false; }
        if f.toIds.Some? && s.toId !in f.toIds.value { ok := false; }
        if f.time.Some? && s.time != f.time.value { ok := false; }
        if f.value.Some? && s.value != f.value.value { ok := false; }
        if f.minTime.Some? && s.time < f.minTime.value { ok := false; }
        if f.maxTime.Some? && s.time > f.maxTime.value { ok := false; }
        if f.minActivationTime.Some? && s.activationTime < f.minActivationTime.value { ok := false; }
        if f.maxActivationTime.Some? && s.activationTime > f.maxActivationTime.value { ok := false; }
        if f.limit.Some? && |res| >= f.limit.value {
          QueryStops(states, i, f);
          return;
        }
        if ok {
          res := res + [s];
        }
        i := i + 1;
      }
      assert states[..i] == states;
    }

    /** `addAsync(state)`: `bisect.insort` of a copy. */
    method Add(s: State)
      requires Valid()
      modifies this
      ensures Valid()
      ensures states == Insert(old(states), s, Time)
      ensures log == old(log) + [s]
    {
      InsertSorted(states, s, Time);
      states := InsortRight(states, s, Time);
      log := log + [s];
    }
  }

  /** A state recorded by the engine: it carries the shared default id, and
      its two clock readings are not earlier than `lo`, `time` first. */
  ghost predicate Stamped(s: State, lo: int, defaultId: Id)
  {
    s.id == defaultId && lo <= s.time <= s.activationTime
  }

  /** `log` extends `log0`, and every state added since is stamped. */
  ghost predicate GrowsFrom(log0: seq<State>, log: seq<State>, lo: int, defaultId: Id)
  {
    |log| >= |log0| && log[..|log0|] == log0 &&
    forall k :: |log0| <= k < |log| ==> Stamped(log[k], lo, defaultId)
  }

  lemma GrowsFromTrans(l0: seq<State>, l1: seq<State>, l2: seq<State>, lo: int, lo1: int, defaultId: Id)
    requires GrowsFrom(l0, l1, lo, defaultId) && GrowsFrom(l1, l2, lo1, defaultId) && lo <= lo1
    ensures GrowsFrom(l0, l2, lo, defaultId)
  {
    assert l2[..|l0|] == l2[..|l1|][..|l0|];
    forall k | |l0| <= k < |l2| ensures Stamped(l2[k], lo, defaultId) {
      if k < |l1| {
        assert l2[k] == l2[..|l1|][k];
      }
    }
  }

  /** `await hist.addAsync(State(fromId, toId, time.time(), time.time(), v))` */
  method Record(hist: InMemoryExecutionHistory, rt: Runtime, fromId: Id, toId: Id, v: Value)
    requires hist.Valid()
    modifies hist, rt`now
    ensures hist.Valid()
    ensures |hist.log| == |old(hist.log)| + 1 && GrowsFrom(old(hist.log), hist.log, old(rt.now), rt.stateDefaultId)
    ensures EventsOf(hist.log[|old(hist.log)|..]) == [Event(fromId, toId, v)]
    ensures rt.now >= old(rt.now)
  {
    var t1 := rt.Time();
    var t2 := rt.Time();
    var s := State(fromId, toId, t1, t2, v, rt.stateDefaultId);
    hist.Add(s);
    assert hist.log[|old(hist.log)|..] == [s];
  }
}
