/** The explainer: the causal-predecessor function of `SequentialExplainer`
    over the entity registry, and the two traversals of the execution
    history it drives, `xHistory` ("why did this happen") and `xNot` ("why
    did this not happen instead"). */
module Explainer {
  import opened Values
  import opened Platform
  import opened Insort
  import opened Registry
  import opened Events
  import opened History

  // ---------------------------------------------------------------------
  // The causal-predecessor function
  // ---------------------------------------------------------------------

  /** `Entity.className()`: the Python class name, followed by ": name" for
      the two classes whose objects carry a `name` attribute. */
  function ClassName(e: Entity): string
  {
    match e
    case Attribute(n, _) => "Attribute: " + n
    case BeliefReviewFunction(_, _) => "BeliefReviewFunction"
    case Action(_) => "Action"
    case GoalPromotion(n, _, _) => "GoalPromotion: " + n
    case Plan(_, _, _) => "Plan"
    case Goal(_, _, _, _) => "Goal"
    case Conflict(_, _) => "Conflict"
    case Agent(_, _, _) => "Agent"
  }

  /** Python attribute reads: `None` is the AttributeError raised when the
      object has no attribute of that name. */
  function AttrsField(e: Entity): Option<seq<Id>>
  {
    if e.BeliefReviewFunction? || e.GoalPromotion? then Some(e.attrs) else None
  }

  function PlansField(e: Entity): Option<seq<Id>>
  {
    if e.Action? || e.Goal? then Some(e.plans) else None
  }

  function GoalsField(e: Entity): Option<seq<Id>>
  {
    if e.GoalPromotion? || e.Plan? || e.Conflict? || e.Agent? then Some(e.goals) else None
  }

  function RelationsField(e: Entity): Option<seq<Id>>
  {
    if e.Attribute? then Some(e.relations) else None
  }

  /** `conflicts + promotions`. */
  function GoalCausesField(e: Entity): Option<seq<Id>>
  {
    if e.Goal? then Some(e.conflicts + e.promotions) else None
  }

  /** `causalFunction` as written: exact class-name tests for five classes,
      then substring tests for "Attribute" and "GoalPromotion", in that
      order.  `None` stands for the AttributeError of a failed field read. */
  function CausalFunctionAsWritten(m: map<Id, Entity>, id: Id): (r: Option<seq<Id>>)
    ensures id !in m ==> r == Some([])
  {
    if id !in m then Some([])
    else
      var e := m[id];
      var cn := ClassName(e);
      if cn == "BeliefReviewFunction" then AttrsField(e)
      else if cn == "Action" then PlansField(e)
      else if cn == "Plan" then GoalsField(e)
      else if cn == "Goal" then GoalCausesField(e)
      else if cn == "Conflict" then GoalsField(e)
      else if Contains(cn, "Attribute") then RelationsField(e)
      else if Contains(cn, "GoalPromotion") then AttrsField(e)
      else Some([])
  }

  /** The predecessors of each kind of entity: belief review functions,
      goal promotions and attributes are caused by the entities linked to
      them through attribute accesses, actions by their plans, plans by
      their goals, goals by their conflicts and then their promotions,
      conflicts by their goals; agents and unknown ids have none. */
  function CausalFunction(m: map<Id, Entity>, id: Id): seq<Id>
  {
    if id !in m then []
    else
      match m[id]
      case Attribute(_, rel) => rel
      case BeliefReviewFunction(_, ats) => ats
      case Action(pls) => pls
      case GoalPromotion(_, _, ats) => ats
      case Plan(_, _, gls) => gls
      case Goal(prs, _, cfs, _) => cfs + prs
      case Conflict(gls, _) => gls
      case Agent(_, _, _) => []
  }

  /** A prefix none of whose characters starts `t` adds no occurrence of
      `t`. */
  lemma {:induction false} ContainsPast(p: string, s: string, t: string)
    requires t != [] && forall k :: 0 <= k < |p| ==> p[k] != t[0]
    ensures Contains(p + s, t) <==> Contains(s, t)
    decreases |p|
  {
    if p == [] {
      assert p + s == s;
    } else {
      assert (p + s)[0] == p[0];
      assert !IsPrefix(t, p + s);
      assert (p + s)[1..] == p[1..] + s;
      ContainsPast(p[1..], s, t);
    }
  }

  lemma ShortNoContains(s: string, t: string)
    requires |s| < |t|
    ensures !Contains(s, t)
    decreases |s|
  {
    if |s| > 0 {
      ShortNoContains(s[1..], t);
    }
  }

  /** The only entity on which the substring test sends `causalFunction`
      to the wrong field: a goal promotion whose name contains
      "Attribute". */
  predicate Misrouted(m: map<Id, Entity>, id: Id)
  {
    id in m && m[id].GoalPromotion? && Contains(m[id].name, "Attribute")
  }

  /** The five exact tests of `causalFunction` recognise exactly their own
      class. */
  lemma ExactTests(e: Entity)
    ensures (ClassName(e) == "BeliefReviewFunction") == e.BeliefReviewFunction?
    ensures (ClassName(e) == "Action") == e.Action?
    ensures (ClassName(e) == "Plan") == e.Plan?
    ensures (ClassName(e) == "Goal") == e.Goal?
    ensures (ClassName(e) == "Conflict") == e.Conflict?
  {
    var cn := ClassName(e);
    if e.Attribute? {
      assert cn[0] == 'A' && cn[1] == 't';
      assert "Action"[1] == 'c';
    } else if e.GoalPromotion? {
      assert cn[0] == 'G' && |cn| >= 15;
    }
  }

  /** The "Attribute" test holds for attributes and for goal promotions
      whose name contains "Attribute"; the "GoalPromotion" test holds for
      goal promotions. */
  lemma SubstringTests(e: Entity)
    requires e.Attribute? || e.GoalPromotion? || e.Agent?
    ensures Contains(ClassName(e), "Attribute") == (e.Attribute? || (e.GoalPromotion? && Contains(e.name, "Attribute")))
    ensures e.GoalPromotion? ==> Contains(ClassName(e), "GoalPromotion")
  {
    match e
    case Attribute(n, _) =>
      assert IsPrefix("Attribute", "Attribute: " + n) by { assert ("Attribute: " + n)[..9] == "Attribute"; }
    case GoalPromotion(n, _, _) =>
      var pre := "GoalPromotion: ";
      ContainsPast(pre, n, "Attribute");
      assert IsPrefix("GoalPromotion", pre + n) by { assert (pre + n)[..13] == "GoalPromotion"; }
    case Agent(_, _, _) =>
      ShortNoContains("Agent", "Attribute");
  }

  /** `causalFunction` as written fails exactly on misrouted goal
      promotions, and on every other id it returns what the corrected
      function returns. */
  lemma CausalFunctionAsWrittenAgrees(m: map<Id, Entity>, id: Id)
    ensures CausalFunctionAsWritten(m, id).None? <==> Misrouted(m, id)
    ensures !Misrouted(m, id) ==> CausalFunctionAsWritten(m, id) == Some(CausalFunction(m, id))
  {
    if id in m {
      var e := m[id];
      ExactTests(e);
      if e.Attribute? || e.GoalPromotion? || e.Agent? {
        SubstringTests(e);
        if e.Agent? {
          ShortNoContains("Agent", "GoalPromotion");
        }
      }
    }
  }

  /** An input that shows the failure: a registry holding only a goal
      promotion named "Attribute check". */
  lemma CausalFunctionAsWrittenFails()
    ensures var m := map["p" := GoalPromotion("Attribute check", [], [])];
            CausalFunctionAsWritten(m, "p") == None && CausalFunction(m, "p") == []
  {
    var m := map["p" := GoalPromotion("Attribute check", [], [])];
    assert Contains("Attribute check", "Attribute") by {
      assert IsPrefix("Attribute", "Attribute check");
    }
    CausalFunctionAsWrittenAgrees(m, "p");
  }

  /** In a well-formed registry every predecessor is a registered entity of
      the kind the domain graph prescribes. */
  lemma CausalFunctionTyped(m: map<Id, Entity>, id: Id, c: Id)
    requires Typed(m) && c in CausalFunction(m, id)
    ensures id in m && c in m
    ensures m[id].Attribute? ==> HasAttrs(m[c])
    ensures m[id].BeliefReviewFunction? || m[id].GoalPromotion? ==> m[c].Attribute?
    ensures m[id].Action? ==> m[c].Plan?
    ensures m[id].Plan? || m[id].Conflict? ==> m[c].Goal?
    ensures m[id].Goal? ==> m[c].Conflict? || m[c].GoalPromotion?
    ensures !m[id].Agent?
  {
    assert EntityTyped(m, m[id]);
  }

  /** Every id that can be named as a predecessor: the finite set that
      bounds the `xNot` recursion. */
  ghost function Predecessors(m: map<Id, Entity>): set<Id>
  {
    set id, c | id in m && c in CausalFunction(m, id) :: c
  }

  lemma PredecessorsHold(m: map<Id, Entity>, id: Id)
    ensures forall c :: c in CausalFunction(m, id) ==> c in Predecessors(m)
  {
    forall c | c in CausalFunction(m, id) ensures c in Predecessors(m) {
      assert id in m;
    }
  }

  // ---------------------------------------------------------------------
  // History queries issued by the traversals
  // ---------------------------------------------------------------------

  /** The query for the latest state from predecessor `c` into the effect's
      source (or into nothing), completed by the effect's activation time
      and, for `xNot`, no earlier than `minTime`. */
  function CauseFilter(c: Id, e: State, minTime: Option<int>): Filter
  {
    Filter(None, Some({c}), Some({e.fromId, ""}), None, None, minTime, Some(e.activationTime), None, None, Some(1), Some("desc"))
  }

  /** The query for the last earlier state into the effect's target: with
      an integer clock, one tick stands for the `1e-6` margin, so
      `activationTime - 1` is "strictly before". */
  function SimilarFilter(e: State): Filter
  {
    Filter(None, None, Some({e.toId}), None, None, None, None, None, Some(e.activationTime - 1), Some(1), Some("desc"))
  }

  /** The causes `xHistory` collects: for each predecessor in order, the
      first state its query returns. */
  function CausesOf(ss: seq<State>, e: State, cs: seq<Id>): seq<State>
  {
    if cs == [] then []
    else
      var h := Query(ss, CauseFilter(cs[|cs| - 1], e, None));
      CausesOf(ss, e, cs[..|cs| - 1]) + (if |h| > 0 then [h[0]] else [])
  }

  lemma QueryOne(ss: seq<State>, f: Filter)
    requires f.limit == Some(1)
    ensures |Query(ss, f)| <= 1
  {
  }

  /** At most one cause per predecessor. */
  lemma {:induction false} CausesBound(ss: seq<State>, e: State, cs: seq<Id>)
    ensures |CausesOf(ss, e, cs)| <= |cs|
    decreases |cs|
  {
    if cs != [] {
      CausesBound(ss, e, cs[..|cs| - 1]);
      QueryOne(ss, CauseFilter(cs[|cs| - 1], e, None));
    }
  }

  /** Each collected cause is a stored state from one of the predecessors
      into the effect's source, completed by the effect's activation time,
      and no other such state from the same predecessor is later. */
  lemma {:induction false} CausesSound(ss: seq<State>, e: State, cs: seq<Id>)
    requires SortedDesc(ss, Time)
    ensures forall x :: x in CausesOf(ss, e, cs) ==>
      x in ss && x.fromId in cs && x.toId in {e.fromId, ""} && x.time <= e.activationTime &&
      forall y :: y in ss && Matches(CauseFilter(x.fromId, e, None), y) ==> y.time <= x.time
    decreases |cs|
  {
    if cs != [] {
      var init := cs[..|cs| - 1];
      var f := CauseFilter(cs[|cs| - 1], e, None);
      var h := Query(ss, f);
      CausesSound(ss, e, init);
      QueryLatest(ss, f);
      assert CausesOf(ss, e, cs) == CausesOf(ss, e, init) + (if |h| > 0 then [h[0]] else []);
      assert forall c :: c in init ==> c in cs;
    }
  }

  /** A predecessor with a state into the effect's source by its
      activation time always contributes a cause at least as late. */
  lemma {:induction false} CausesComplete(ss: seq<State>, e: State, cs: seq<Id>)
    requires SortedDesc(ss, Time)
    ensures forall c, y :: c in cs && y in ss && Matches(CauseFilter(c, e, None), y) ==>
      exists x :: x in CausesOf(ss, e, cs) && x.fromId == c && y.time <= x.time
    decreases |cs|
  {
    if cs != [] {
      var init := cs[..|cs| - 1];
      var c := cs[|cs| - 1];
      var f := CauseFilter(c, e, None);
      var h := Query(ss, f);
      CausesComplete(ss, e, init);
      QueryLatest(ss, f);
      var r := CausesOf(ss, e, cs);
      assert r == CausesOf(ss, e, init) + (if |h| > 0 then [h[0]] else []);
      assert cs == init + [c];
      forall c', y | c' in cs && y in ss && Matches(CauseFilter(c', e, None), y)
        ensures exists x :: x in r && x.fromId == c' && y.time <= x.time
      {
        if c' == c {
          assert h[0] in r && h[0].fromId == c;
        } else {
          assert c' in init;
        }
      }
    }
  }

  /** Each collected cause is a stored state from one of the predecessors
      into the effect's source, completed by the effect's activation time,
      and no other such state from the same predecessor is later; a
      predecessor with such a state always contributes one; there is at
      most one cause per predecessor. */
  lemma CausesLatest(ss: seq<State>, e: State, cs: seq<Id>)
    requires SortedDesc(ss, Time)
    ensures |CausesOf(ss, e, cs)| <= |cs|
    ensures forall x :: x in CausesOf(ss, e, cs) ==>
      x in ss && x.fromId in cs && x.toId in {e.fromId, ""} && x.time <= e.activationTime &&
      forall y :: y in ss && Matches(CauseFilter(x.fromId, e, None), y) ==> y.time <= x.time
    ensures forall c, y :: c in cs && y in ss && Matches(CauseFilter(c, e, None), y) ==>
      exists x :: x in CausesOf(ss, e, cs) && x.fromId == c && y.time <= x.time
  {
    CausesBound(ss, e, cs);
    CausesSound(ss, e, cs);
    CausesComplete(ss, e, cs);
  }

  /** `causes.sort()` with the reversed `__lt__`: a stable sort into
      descending time, which repeated `bisect.insort` also produces. */
  function SortByTime(s: seq<State>): seq<State>
  {
    if s == [] then [] else Insert(SortByTime(s[..|s| - 1]), s[|s| - 1], Time)
  }

  /** The sort orders by descending time. */
  lemma {:induction false} SortByTimeSorted(s: seq<State>)
    ensures SortedDesc(SortByTime(s), Time)
    decreases |s|
  {
    if s != [] {
      var init := s[..|s| - 1];
      SortByTimeSorted(init);
      InsertSorted(SortByTime(init), s[|s| - 1], Time);
    }
  }

  /** The sort keeps every element, as often as it occurs. */
  lemma {:induction false} SortByTimePermutes(s: seq<State>)
    ensures multiset(SortByTime(s)) == multiset(s)
    decreases |s|
  {
    if s != [] {
      var init := s[..|s| - 1];
      SortByTimePermutes(init);
      assert s == init + [s[|s| - 1]];
      assert multiset(s) == multiset(init) + multiset{s[|s| - 1]};
    }
  }

  /** The sort orders by descending time and keeps every element. */
  lemma SortByTimeCorrect(s: seq<State>)
    ensures SortedDesc(SortByTime(s), Time) && multiset(SortByTime(s)) == multiset(s)
  {
    SortByTimeSorted(s);
    SortByTimePermutes(s);
  }

  // ---------------------------------------------------------------------
  // xHistory
  // ---------------------------------------------------------------------

  /** One `(state, r)` pair yielded by `xHistory`. */
  datatype Explained = Explained(state: State, depth: int)

  lemma CausesStored(ss: seq<State>, e: State, cs: seq<Id>)
    ensures forall x :: x in SortByTime(CausesOf(ss, e, cs)) ==> x in ss
  {
    var s := SortByTime(CausesOf(ss, e, cs));
    SortByTimeCorrect(CausesOf(ss, e, cs));
    forall x | x in s ensures x in ss {
      assert x in multiset(CausesOf(ss, e, cs));
      CausesIn(ss, e, cs, x);
    }
  }

  /** The causes of `e`, latest first: what `xHistoryAsync` iterates over. */
  function SortedCauses(ss: seq<State>, m: map<Id, Entity>, e: State): (cs: seq<State>)
    ensures forall x :: x in cs ==> x in ss
  {
    CausesStored(ss, e, CausalFunction(m, e.fromId));
    SortByTime(CausesOf(ss, e, CausalFunction(m, e.fromId)))
  }

  /** The causes are in descending time order and are exactly the collected
      ones. */
  lemma SortedCausesOrder(ss: seq<State>, m: map<Id, Entity>, e: State)
    ensures SortedDesc(SortedCauses(ss, m, e), Time)
    ensures multiset(SortedCauses(ss, m, e)) == multiset(CausesOf(ss, e, CausalFunction(m, e.fromId)))
  {
    SortByTimeCorrect(CausesOf(ss, e, CausalFunction(m, e.fromId)));
  }

  /** The causes of every state, as one function value. */
  function CauseMap(ss: seq<State>, m: map<Id, Entity>): State -> seq<State>
  {
    s => SortedCauses(ss, m, s)
  }

  /** `cf` gives every state its sorted causes on `ss` and `m`; instantiated
      only where those causes are computed. */
  ghost predicate Computes(cf: State -> seq<State>, ss: seq<State>, m: map<Id, Entity>)
  {
    forall s {:trigger SortedCauses(ss, m, s)} :: cf(s) == SortedCauses(ss, m, s)
  }

  lemma CauseMapComputes(ss: seq<State>, m: map<Id, Entity>)
    ensures Computes(CauseMap(ss, m), ss, m)
  {
  }

  /** What `xHistoryAsync(e, r)` yields within `fuel` levels of recursion,
      for the causes `causes` assigns to each state: the causes of `e`, each
      followed by its own explanation one level deeper. */
  function XHistoryOf(causes: State -> seq<State>, e: State, r: int, fuel: nat): seq<Explained>
  {
    if fuel == 0 then [] else XHistoryList(causes, causes(e), r, fuel - 1)
  }

  /** The loop over the causes `cs` at depth `r`: each is yielded, then
      explained with `fuel` levels left. */
  function XHistoryList(causes: State -> seq<State>, cs: seq<State>, r: int, fuel: nat): seq<Explained>
    decreases fuel, |cs|
  {
    if cs == [] then []
    else
      [Explained(cs[0], r)]
      + (if fuel == 0 then [] else XHistoryList(causes, causes(cs[0]), r + 1, fuel - 1))
      + XHistoryList(causes, cs[1..], r, fuel)
  }

  /** The explanation of a list is the explanations of its parts, in
      order. */
  lemma {:induction false} ListAppend(causes: State -> seq<State>, a: seq<State>, b: seq<State>, r: int, fuel: nat)
    ensures XHistoryList(causes, a + b, r, fuel) == XHistoryList(causes, a, r, fuel) + XHistoryList(causes, b, r, fuel)
    decreases |a|
  {
    if a == [] {
      assert a + b == b;
    } else {
      assert (a + b)[0] == a[0] && (a + b)[1..] == a[1..] + b;
      ListAppend(causes, a[1..], b, r, fuel);
    }
  }

  /** One turn of the loop: what the first `i + 1` causes yield is what the
      first `i` yield, then the cause at `i` and its explanation. */
  lemma ListStep(causes: State -> seq<State>, cs: seq<State>, i: int, r: int, fuel: nat)
    requires 0 <= i < |cs|
    ensures XHistoryList(causes, cs[..i + 1], r, fuel) ==
      XHistoryList(causes, cs[..i], r, fuel) + [Explained(cs[i], r)] + XHistoryOf(causes, cs[i], r + 1, fuel)
  {
    assert cs[..i + 1] == cs[..i] + [cs[i]];
    ListAppend(causes, cs[..i], [cs[i]], r, fuel);
    assert [cs[i]][1..] == [];
  }

  /** Every depth lies in `[lo, hi]`. */
  ghost predicate DepthsIn(out: seq<Explained>, lo: int, hi: int)
  {
    forall k :: 0 <= k < |out| ==> lo <= out[k].depth <= hi
  }

  /** Every state is a stored one. */
  ghost predicate StatesIn(out: seq<Explained>, ss: seq<State>)
  {
    forall k :: 0 <= k < |out| ==> out[k].state in ss
  }

  /** `causes` only ever names stored states. */
  ghost predicate Closed(causes: State -> seq<State>, ss: seq<State>)
  {
    forall s, x :: x in causes(s) ==> x in ss
  }

  lemma DepthsJoin(x: Explained, b: seq<Explained>, c: seq<Explained>, lo: int, hi: int)
    requires lo <= x.depth <= hi && DepthsIn(b, lo, hi) && DepthsIn(c, lo, hi)
    ensures DepthsIn([x] + b + c, lo, hi)
  {
    var ab := [x] + b;
    forall k | 0 <= k < |ab + c| ensures lo <= (ab + c)[k].depth <= hi {
      if k >= |ab| {
        assert (ab + c)[k] == c[k - |ab|];
      } else if k > 0 {
        assert (ab + c)[k] == b[k - 1];
      }
    }
  }

  lemma StatesJoin(x: Explained, b: seq<Explained>, c: seq<Explained>, ss: seq<State>)
    requires x.state in ss && StatesIn(b, ss) && StatesIn(c, ss)
    ensures StatesIn([x] + b + c, ss)
  {
    var ab := [x] + b;
    forall k | 0 <= k < |ab + c| ensures (ab + c)[k].state in ss {
      if k >= |ab| {
        assert (ab + c)[k] == c[k - |ab|];
      } else if k > 0 {
        assert (ab + c)[k] == b[k - 1];
      }
    }
  }

  /** Every yielded pair is at a depth from `r` up to the last level the
      fuel allows. */
  lemma XHistoryDepths(causes: State -> seq<State>, e: State, r: int, fuel: nat)
    ensures DepthsIn(XHistoryOf(causes, e, r, fuel), r, r + fuel - 1)
  {
    if fuel > 0 {
      XHistoryListDepths(causes, causes(e), r, fuel - 1);
    }
  }

  lemma {:induction false} XHistoryListDepths(causes: State -> seq<State>, cs: seq<State>, r: int, fuel: nat)
    ensures DepthsIn(XHistoryList(causes, cs, r, fuel), r, r + fuel)
    decreases fuel, |cs|
  {
    if cs != [] {
      var b := if fuel == 0 then [] else XHistoryList(causes, causes(cs[0]), r + 1, fuel - 1);
      if fuel > 0 {
        XHistoryListDepths(causes, causes(cs[0]), r + 1, fuel - 1);
      }
      XHistoryListDepths(causes, cs[1..], r, fuel);
      DepthsJoin(Explained(cs[0], r), b, XHistoryList(causes, cs[1..], r, fuel), r, r + fuel);
    }
  }

  /** With causes drawn from the history, every yielded state is a stored
      state. */
  lemma XHistoryStored(causes: State -> seq<State>, ss: seq<State>, e: State, r: int, fuel: nat)
    requires Closed(causes, ss)
    ensures StatesIn(XHistoryOf(causes, e, r, fuel), ss)
  {
    if fuel > 0 {
      XHistoryListStored(causes, ss, causes(e), r, fuel - 1);
    }
  }

  lemma {:induction false} XHistoryListStored(causes: State -> seq<State>, ss: seq<State>, cs: seq<State>, r: int, fuel: nat)
    requires Closed(causes, ss) && forall x :: x in cs ==> x in ss
    ensures StatesIn(XHistoryList(causes, cs, r, fuel), ss)
    decreases fuel, |cs|
  {
    if cs != [] {
      var b := if fuel == 0 then [] else XHistoryList(causes, causes(cs[0]), r + 1, fuel - 1);
      if fuel > 0 {
        XHistoryListStored(causes, ss, causes(cs[0]), r + 1, fuel - 1);
      }
      XHistoryListStored(causes, ss, cs[1..], r, fuel);
      StatesJoin(Explained(cs[0], r), b, XHistoryList(causes, cs[1..], r, fuel), ss);
    }
  }

  /** The explainer's causes are drawn from the history. */
  lemma CauseMapClosed(ss: seq<State>, m: map<Id, Entity>)
    ensures Closed(CauseMap(ss, m), ss)
  {
  }

  /** Membership in `CausesOf` only (the part of `CausesLatest` that needs
      no order on the history). */
  lemma {:induction false} CausesIn(ss: seq<State>, e: State, cs: seq<Id>, x: State)
    requires x in CausesOf(ss, e, cs)
    ensures x in ss && Matches(CauseFilter(x.fromId, e, None), x) && x.fromId in cs
    decreases |cs|
  {
    var init := cs[..|cs| - 1];
    var c := cs[|cs| - 1];
    var h := Query(ss, CauseFilter(c, e, None));
    assert cs == init + [c];
    if x in CausesOf(ss, e, init) {
      CausesIn(ss, e, init, x);
    } else {
      assert |h| > 0 && x == h[0];
      QuerySound(ss, CauseFilter(c, e, None), x);
    }
  }

  /** The entries at exactly depth `d`. */
  function AtDepth(out: seq<Explained>, d: int): seq<State>
  {
    if out == [] then []
    else AtDepth(out[..|out| - 1], d) + (if out[|out| - 1].depth == d then [out[|out| - 1].state] else [])
  }

  lemma {:induction false} AtDepthAppend(a: seq<Explained>, b: seq<Explained>, d: int)
    ensures AtDepth(a + b, d) == AtDepth(a, d) + AtDepth(b, d)
    decreases |b|
  {
    if b == [] {
      assert a + b == a;
    } else {
      assert (a + b)[..|a + b| - 1] == a + b[..|b| - 1];
      AtDepthAppend(a, b[..|b| - 1], d);
    }
  }

  lemma {:induction false} AtDepthNone(out: seq<Explained>, d: int)
    requires forall k :: 0 <= k < |out| ==> out[k].depth != d
    ensures AtDepth(out, d) == []
    decreases |out|
  {
    if out != [] {
      AtDepthNone(out[..|out| - 1], d);
    }
  }

  /** The entries at the first level are exactly the causes, in their
      order: each cause is yielded at depth `r`, and everything its own
      explanation yields lies deeper. */
  lemma XHistoryTop(causes: State -> seq<State>, e: State, r: int, fuel: nat)
    requires fuel > 0
    ensures AtDepth(XHistoryOf(causes, e, r, fuel), r) == causes(e)
  {
    assert XHistoryOf(causes, e, r, fuel) == XHistoryList(causes, causes(e), r, fuel - 1);
    XHistoryListTop(causes, causes(e), r, fuel - 1);
  }

  lemma {:induction false} XHistoryListTop(causes: State -> seq<State>, cs: seq<State>, r: int, fuel: nat)
    ensures AtDepth(XHistoryList(causes, cs, r, fuel), r) == cs
    decreases |cs|
  {
    if cs != [] {
      TopStep(causes, cs, r, fuel);
      XHistoryListTop(causes, cs[1..], r, fuel);
      assert cs == [cs[0]] + cs[1..];
    }
  }

  /** The first cause is the only entry at depth `r` before the rest of the
      list. */
  lemma TopStep(causes: State -> seq<State>, cs: seq<State>, r: int, fuel: nat)
    requires cs != []
    ensures AtDepth(XHistoryList(causes, cs, r, fuel), r) == [cs[0]] + AtDepth(XHistoryList(causes, cs[1..], r, fuel), r)
  {
    var b := if fuel == 0 then [] else XHistoryList(causes, causes(cs[0]), r + 1, fuel - 1);
    assert XHistoryList(causes, cs, r, fuel) == [Explained(cs[0], r)] + b + XHistoryList(causes, cs[1..], r, fuel);
    if fuel > 0 {
      XHistoryListDepths(causes, causes(cs[0]), r + 1, fuel - 1);
    }
    AtDepthSkip(Explained(cs[0], r), b, XHistoryList(causes, cs[1..], r, fuel), r);
  }

  /** An entry at depth `d`, then deeper ones, then `c`: at depth `d` that
      is the entry's state followed by what `c` has there. */
  lemma AtDepthSkip(x: Explained, b: seq<Explained>, c: seq<Explained>, d: int)
    requires x.depth == d && forall k :: 0 <= k < |b| ==> b[k].depth > d
    ensures AtDepth([x] + b + c, d) == [x.state] + AtDepth(c, d)
  {
    AtDepthNone(b, d);
    assert AtDepth([x], d) == AtDepth([], d) + [x.state];
    AtDepthAppend([x] + b, c, d);
    AtDepthAppend([x], b, d);
  }

  /** For the explainer's causes: the first level is the collected causes,
      latest first. */
  lemma XHistoryFirstLevel(ss: seq<State>, m: map<Id, Entity>, e: State, r: int, fuel: nat)
    requires fuel > 0
    ensures var top := AtDepth(XHistoryOf(CauseMap(ss, m), e, r, fuel), r);
            SortedDesc(top, Time) && multiset(top) == multiset(CausesOf(ss, e, CausalFunction(m, e.fromId)))
  {
    XHistoryTop(CauseMap(ss, m), e, r, fuel);
    SortedCausesOrder(ss, m, e);
  }

  /** The sources of the yielded entries. */
  function Origins(out: seq<Explained>): set<Id>
  {
    if out == [] then {} else Origins(out[..|out| - 1]) + {out[|out| - 1].state.fromId}
  }

  lemma {:induction false} OriginsAppend(a: seq<Explained>, b: seq<Explained>)
    ensures Origins(a + b) == Origins(a) + Origins(b)
    decreases |b|
  {
    if b == [] {
      assert a + b == a;
    } else {
      assert (a + b)[..|a + b| - 1] == a + b[..|b| - 1];
      OriginsAppend(a, b[..|b| - 1]);
    }
  }

  lemma OriginsStep(out: seq<Explained>, x: Explained, nested: seq<Explained>)
    ensures Origins(out + [x] + nested) == Origins(out) + {x.state.fromId} + Origins(nested)
  {
    OriginsAppend(out, [x]);
    OriginsAppend(out + [x], nested);
    assert Origins([x]) == Origins([]) + {x.state.fromId};
  }

  // ---------------------------------------------------------------------
  // xNot
  // ---------------------------------------------------------------------

  /** One `(state, score, r)` triple yielded by `xNot`. */
  datatype Scored = Scored(state: State, score: real, depth: int)

  /** `1/r * (len(causes) / (len(possibleCauses) + 1))`, in exact
      arithmetic. */
  function Score(r: int, realized: nat, possible: nat): (s: real)
    requires r >= 1
    ensures 0.0 <= s && (realized == 0 ==> s == 0.0)
    ensures realized <= possible ==> s < 1.0
  {
    (1.0 / r as real) * (realized as real / (possible + 1) as real)
  }

  /** The lower time bound of the window: just after the activation of the
      last earlier state into the effect's target, or 0. */
  function MinTime(ss: seq<State>, e: State): int
  {
    var q := Query(ss, SimilarFilter(e));
    if |q| > 0 then q[0].activationTime + 1 else 0
  }

  /** The predecessors split into the causes realised in the window (the
      state found for each) and those with no state there. */
  function Realize(ss: seq<State>, e: State, cs: seq<Id>, minTime: int): (r: (seq<State>, seq<Id>))
    ensures |r.0| + |r.1| == |cs|
  {
    if cs == [] then ([], [])
    else
      var p := Realize(ss, e, cs[..|cs| - 1], minTime);
      var h := Query(ss, CauseFilter(cs[|cs| - 1], e, Some(minTime)));
      if |h| > 0 then (p.0 + [h[0]], p.1) else (p.0, p.1 + [cs[|cs| - 1]])
  }

  /** Every realised cause is a stored state from a predecessor into the
      effect's source inside the window `[minTime, activationTime]`; the
      unrealised predecessors are exactly the ones with no such state. */
  lemma {:induction false} RealizeExact(ss: seq<State>, e: State, cs: seq<Id>, minTime: int)
    ensures forall x :: x in Realize(ss, e, cs, minTime).0 ==>
      x in ss && x.fromId in cs && x.toId in {e.fromId, ""} && minTime <= x.time <= e.activationTime
    ensures forall c :: c in Realize(ss, e, cs, minTime).1 ==> c in cs
    ensures forall c, y :: c in Realize(ss, e, cs, minTime).1 && y in ss ==> !Matches(CauseFilter(c, e, Some(minTime)), y)
    ensures forall c :: c in cs && c !in Realize(ss, e, cs, minTime).1 ==>
      exists x :: x in Realize(ss, e, cs, minTime).0 && x.fromId == c
    decreases |cs|
  {
    if cs != [] {
      var init := cs[..|cs| - 1];
      var c := cs[|cs| - 1];
      var f := CauseFilter(c, e, Some(minTime));
      var h := Query(ss, f);
      assert cs == init + [c];
      RealizeExact(ss, e, init, minTime);
      var p := Realize(ss, e, init, minTime);
      if |h| > 0 {
        QuerySound(ss, f, h[0]);
        assert Realize(ss, e, cs, minTime) == (p.0 + [h[0]], p.1);
        forall c' | c' in cs && c' !in p.1 ensures exists x :: x in p.0 + [h[0]] && x.fromId == c' {
          if c' == c {
            assert h[0] in p.0 + [h[0]];
          }
        }
      } else {
        assert Realize(ss, e, cs, minTime) == (p.0, p.1 + [c]);
        assert Select(ss, f) == [];
        forall y | y in ss ensures !Matches(f, y) {
          SelectExact(ss, f, y);
        }
      }
    }
  }

  /** The hypothetical state `State(fromId=c, toId=e.fromId,
      activationTime=e.activationTime)`: time 0, the shared default value
      `{}` and the shared default id. */
  function Hypothesis(c: Id, e: State, defaultId: Id): State
  {
    State(c, e.fromId, 0, e.activationTime, Dict(map[]), defaultId)
  }

  function SumScores(ts: seq<Scored>): real
  {
    if ts == [] then 0.0 else SumScores(ts[..|ts| - 1]) + ts[|ts| - 1].score
  }

  lemma {:induction false} SumScoresAppend(a: seq<Scored>, b: seq<Scored>)
    ensures SumScores(a + b) == SumScores(a) + SumScores(b)
    decreases |b|
  {
    if b == [] {
      assert a + b == a;
    } else {
      assert (a + b)[..|a + b| - 1] == a + b[..|b| - 1];
      SumScoresAppend(a, b[..|b| - 1]);
    }
  }

  /** What one call of `xNotAsync` finds before it recurses: the possible
      causes with no state in the window (those it explores), how many of
      them were realised, and how many there were. */
  datatype Step = Step(unrealized: seq<Id>, realized: nat, possible: nat)

  /** The step `xNotAsync` takes at `e` on the history `ss`. */
  function StepOf(ss: seq<State>, m: map<Id, Entity>, e: State): Step
  {
    var possible := CausalFunction(m, e.fromId);
    var rz := Realize(ss, e, possible, MinTime(ss, e));
    Step(rz.1, |rz.0|, |possible|)
  }

  /** The steps of every state, as one function value. */
  function StepMap(ss: seq<State>, m: map<Id, Entity>): State -> Step
  {
    s => StepOf(ss, m, s)
  }

  /** `step` is `StepOf` on `ss` and `m`; instantiated only where a step
      is computed. */
  ghost predicate Steps(step: State -> Step, ss: seq<State>, m: map<Id, Entity>)
  {
    forall s {:trigger StepOf(ss, m, s)} :: step(s) == StepOf(ss, m, s)
  }

  /** Every predecessor a step leaves to explore lies in `preds`. */
  ghost predicate Bounded(step: State -> Step, preds: set<Id>)
  {
    forall s, c :: c in step(s).unrealized ==> c in preds
  }

  /** A step splits the possible causes of `e` into the realised and the
      unrealised ones; the unrealised are among them, so they are
      predecessors of some entity. */
  lemma StepOfSplits(ss: seq<State>, m: map<Id, Entity>, e: State)
    ensures var st := StepOf(ss, m, e);
            && st.possible == |CausalFunction(m, e.fromId)| == st.realized + |st.unrealized|
            && forall c :: c in st.unrealized ==> c in CausalFunction(m, e.fromId) && c in Predecessors(m)
  {
    RealizeExact(ss, e, CausalFunction(m, e.fromId), MinTime(ss, e));
    PredecessorsHold(m, e.fromId);
  }

  lemma StepMapBounded(ss: seq<State>, m: map<Id, Entity>)
    ensures Steps(StepMap(ss, m), ss, m) && Bounded(StepMap(ss, m), Predecessors(m))
  {
    forall s, c | c in StepMap(ss, m)(s).unrealized ensures c in Predecessors(m) {
      StepOfSplits(ss, m, s);
    }
  }

  /** What `xNotAsync(e, r)` yields, and the `past` set it leaves, starting
      from `past`, when `step` gives each state's step and every
      predecessor lies in `preds`: nothing for an effect whose source was
      already visited; otherwise the explanations of every unrealised
      predecessor, then the effect with its own score plus the scores of
      everything yielded before it. */
  function XNotOf(step: State -> Step, preds: set<Id>, d: Id, e: State, r: int, past: set<Id>): (res: (seq<Scored>, set<Id>))
    requires r >= 1 && Bounded(step, preds)
    ensures past <= res.1
    decreases (preds + {e.fromId}) - past, 0
  {
    if e.fromId in past then ([], past)
    else
      assert e.fromId in (preds + {e.fromId}) - past;
      var kids := XNotChildren(step, preds, d, e, step(e).unrealized, r + 1, past + {e.fromId});
      (kids.0 + [Scored(e, Score(r, step(e).realized, step(e).possible) + SumScores(kids.0), r)], kids.1)
  }

  /** The loop over the unrealised predecessors `cs` of `e`, each explained
      at depth `r` from a hypothetical state. */
  function XNotChildren(step: State -> Step, preds: set<Id>, d: Id, e: State, cs: seq<Id>, r: int, past: set<Id>): (res: (seq<Scored>, set<Id>))
    requires r >= 1 && Bounded(step, preds) && forall c :: c in cs ==> c in preds
    ensures past <= res.1
    decreases preds - past, 1, |cs|
  {
    if cs == [] then ([], past)
    else
      var a := XNotChildren(step, preds, d, e, cs[..|cs| - 1], r, past);
      var c := cs[|cs| - 1];
      assert (preds + {c}) - a.1 <= preds - past;
      var b := XNotOf(step, preds, d, Hypothesis(c, e, d), r, a.1);
      (a.0 + b.0, b.1)
  }

  /** One turn of the loop over the unrealised predecessors: the first
      `i + 1` are the first `i`, then the one at `i` explained from the
      `past` those leave. */
  lemma ChildrenStep(step: State -> Step, preds: set<Id>, d: Id, e: State, cs: seq<Id>, i: int, r: int, past: set<Id>)
    requires r >= 1 && Bounded(step, preds) && forall c :: c in cs ==> c in preds
    requires 0 <= i < |cs|
    ensures var a := XNotChildren(step, preds, d, e, cs[..i], r, past);
            var b := XNotOf(step, preds, d, Hypothesis(cs[i], e, d), r, a.1);
            XNotChildren(step, preds, d, e, cs[..i + 1], r, past) == (a.0 + b.0, b.1)
  {
    assert cs[..i + 1][..i] == cs[..i];
  }

  /** The sources of the yielded triples. */
  function Sources(ts: seq<Scored>): set<Id>
  {
    if ts == [] then {} else Sources(ts[..|ts| - 1]) + {ts[|ts| - 1].state.fromId}
  }

  lemma {:induction false} SourcesAppend(a: seq<Scored>, b: seq<Scored>)
    ensures Sources(a + b) == Sources(a) + Sources(b)
    decreases |b|
  {
    if b == [] {
      assert a + b == a;
    } else {
      assert (a + b)[..|a + b| - 1] == a + b[..|b| - 1];
      SourcesAppend(a, b[..|b| - 1]);
    }
  }

  lemma {:induction false} SourcesIn(ts: seq<Scored>, k: int)
    requires 0 <= k < |ts|
    ensures ts[k].state.fromId in Sources(ts)
    decreases |ts|
  {
    if k < |ts| - 1 {
      SourcesIn(ts[..|ts| - 1], k);
    }
  }

  /** The traversal facts shared by a node and a loop over children: no
      yielded state comes from an id visited before, no source is yielded
      twice, `past` grows by exactly the yielded sources, every depth is at
      least `r`, and every score is non-negative. */
  ghost predicate Traversal(out: seq<Scored>, past: set<Id>, past2: set<Id>, r: int)
  {
    && past2 == past + Sources(out)
    && (forall k :: 0 <= k < |out| ==> out[k].state.fromId !in past)
    && (forall i, j :: 0 <= i < j < |out| ==> out[i].state.fromId != out[j].state.fromId)
    && (forall k :: 0 <= k < |out| ==> out[k].depth >= r && out[k].score >= 0.0)
  }

  lemma TraversalAppend(a: seq<Scored>, b: seq<Scored>, p0: set<Id>, p1: set<Id>, p2: set<Id>, r: int)
    requires Traversal(a, p0, p1, r) && Traversal(b, p1, p2, r)
    ensures Traversal(a + b, p0, p2, r)
  {
    SourcesAppend(a, b);
    forall i, j | 0 <= i < j < |a + b| ensures (a + b)[i].state.fromId != (a + b)[j].state.fromId {
      if i < |a| && j >= |a| {
        SourcesIn(a, i);
        assert (a + b)[j] == b[j - |a|];
      }
    }
  }

  lemma {:induction false} XNotTraversal(step: State -> Step, preds: set<Id>, d: Id, e: State, r: int, past: set<Id>)
    requires r >= 1 && Bounded(step, preds)
    ensures Traversal(XNotOf(step, preds, d, e, r, past).0, past, XNotOf(step, preds, d, e, r, past).1, r)
    decreases (preds + {e.fromId}) - past, 0
  {
    var res := XNotOf(step, preds, d, e, r, past);
    if e.fromId in past {
      assert res == ([], past);
      assert Sources([]) == {};
    } else {
      var p1 := past + {e.fromId};
      assert e.fromId in (preds + {e.fromId}) - past;
      var kids := XNotChildren(step, preds, d, e, step(e).unrealized, r + 1, p1);
      XNotChildrenTraversal(step, preds, d, e, step(e).unrealized, r + 1, p1);
      XNotScores(kids.0);
      var me := Scored(e, Score(r, step(e).realized, step(e).possible) + SumScores(kids.0), r);
      TraversalSwap(kids.0, me, past, p1, kids.1, r);
      assert res == (kids.0 + [me], kids.1);
    }
  }

  /** A node after its children: the children avoid `p1`, which holds the
      node's source. */
  lemma TraversalSwap(kids: seq<Scored>, me: Scored, past: set<Id>, p1: set<Id>, p2: set<Id>, r: int)
    requires p1 == past + {me.state.fromId} && me.state.fromId !in past
    requires Traversal(kids, p1, p2, r + 1) && me.depth == r && me.score >= 0.0
    ensures Traversal(kids + [me], past, p2, r)
  {
    SourcesAppend(kids, [me]);
    assert Sources([me]) == {me.state.fromId};
    var out := kids + [me];
    forall i, j | 0 <= i < j < |out| ensures out[i].state.fromId != out[j].state.fromId {
      if j == |kids| {
        assert out[i] == kids[i];
      }
    }
  }

  /** Non-negative scores add up to a non-negative sum. */
  lemma {:induction false} XNotScores(ts: seq<Scored>)
    requires forall k :: 0 <= k < |ts| ==> ts[k].score >= 0.0
    ensures SumScores(ts) >= 0.0
    decreases |ts|
  {
    if ts != [] {
      XNotScores(ts[..|ts| - 1]);
    }
  }

  lemma {:induction false} XNotChildrenTraversal(step: State -> Step, preds: set<Id>, d: Id, e: State, cs: seq<Id>, r: int, past: set<Id>)
    requires r >= 1 && Bounded(step, preds) && forall c :: c in cs ==> c in preds
    ensures Traversal(XNotChildren(step, preds, d, e, cs, r, past).0, past, XNotChildren(step, preds, d, e, cs, r, past).1, r)
    decreases preds - past, 1, |cs|
  {
    if cs == [] {
      assert Sources([]) == {};
    } else {
      var init := cs[..|cs| - 1];
      var c := cs[|cs| - 1];
      XNotChildrenTraversal(step, preds, d, e, init, r, past);
      var a := XNotChildren(step, preds, d, e, init, r, past);
      assert (preds + {c}) - a.1 <= preds - past;
      XNotTraversal(step, preds, d, Hypothesis(c, e, d), r, a.1);
      var b := XNotOf(step, preds, d, Hypothesis(c, e, d), r, a.1);
      TraversalAppend(a.0, b.0, past, a.1, b.1, r);
    }
  }

  /** The shape of one `xNot` call: it yields nothing exactly when the
      effect's source was visited before; otherwise it yields the effect
      last, at depth `r`, scored its own share plus the sum of the triples
      before it (so no less than its own share), and every other triple
      deeper; a source with nothing left to explore gets
      the single triple carrying its own score. */
  lemma XNotShape(step: State -> Step, preds: set<Id>, d: Id, e: State, r: int, past: set<Id>)
    requires r >= 1 && Bounded(step, preds)
    ensures var out := XNotOf(step, preds, d, e, r, past).0;
            && (out == [] <==> e.fromId in past)
            && (out != [] ==>
                  && out[|out| - 1].state == e && out[|out| - 1].depth == r
                  && out[|out| - 1].score == Score(r, step(e).realized, step(e).possible) + SumScores(out[..|out| - 1])
                  && out[|out| - 1].score >= Score(r, step(e).realized, step(e).possible)
                  && forall k :: 0 <= k < |out| - 1 ==> out[k].depth > r)
            && (e.fromId !in past && step(e).unrealized == [] ==> out == [Scored(e, Score(r, step(e).realized, step(e).possible), r)])
  {
    if e.fromId !in past {
      var p1 := past + {e.fromId};
      var kids := XNotChildren(step, preds, d, e, step(e).unrealized, r + 1, p1);
      XNotChildrenTraversal(step, preds, d, e, step(e).unrealized, r + 1, p1);
      XNotScores(kids.0);
      var out := kids.0 + [Scored(e, Score(r, step(e).realized, step(e).possible) + SumScores(kids.0), r)];
      assert out[..|out| - 1] == kids.0;
      forall k | 0 <= k < |out| - 1 ensures out[k].depth > r {
        assert out[k] == kids.0[k];
      }
    }
  }

  /** On the explainer's steps: a source no causal rule links anything to
      yields the single triple `(e, 0, r)`. */
  lemma XNotNoCauses(ss: seq<State>, m: map<Id, Entity>, d: Id, e: State, r: int, past: set<Id>)
    requires r >= 1 && e.fromId !in past && CausalFunction(m, e.fromId) == []
    ensures Bounded(StepMap(ss, m), Predecessors(m))
    ensures XNotOf(StepMap(ss, m), Predecessors(m), d, e, r, past).0 == [Scored(e, 0.0, r)]
  {
    StepMapBounded(ss, m);
    StepOfSplits(ss, m, e);
    XNotShape(StepMap(ss, m), Predecessors(m), d, e, r, past);
  }

  // ---------------------------------------------------------------------
  // The explainer object
  // ---------------------------------------------------------------------

  /** The default `past` sets of `xHistoryAsync` and `xNotAsync`. Python
      makes them once, when the class body runs, so every explainer of the
      process and every call that passes no `past` shares them. */
  class PastDefaults {
    /** The mutable default `past` of `xHistoryAsync`: only ever added to. */
    var historyPast: set<Id>
    /** The mutable default `past` of `xNotAsync`, shared by every call that
        does not pass its own, the recursive ones included. */
    var notPast: set<Id>

    /** The two `set()` defaults, as the class body makes them. */
    constructor ()
      ensures historyPast == {} && notPast == {}
    {
      historyPast := {};
      notPast := {};
    }
  }

  class SequentialExplainer {
    const hist: InMemoryExecutionHistory
    const reg: Registry
    /** The process's default `past` sets, shared with every other
        explainer built over the same defaults. */
    const defaults: PastDefaults

    /** `SequentialExplainer(executionHistory)`: the defaults are taken as
        they stand, with whatever earlier explainers added to them. */
    constructor (hist: InMemoryExecutionHistory, reg: Registry, defaults: PastDefaults)
      ensures this.hist == hist && this.reg == reg && this.defaults == defaults
      ensures defaults.historyPast == old(defaults.historyPast) && defaults.notPast == old(defaults.notPast)
    {
      this.hist := hist;
      this.reg := reg;
      this.defaults := defaults;
    }

    /** The loop of `xHistoryAsync` that queries one latest state per
        predecessor. */
    method CollectCauses(e: State, possible: seq<Id>) returns (causes: seq<State>)
      ensures causes == CausesOf(hist.states, e, possible)
    {
      causes := [];
      for i := 0 to |possible|
        invariant causes == CausesOf(hist.states, e, possible[..i])
      {
        assert possible[..i + 1][..i] == possible[..i];
        var h := hist.Get(CauseFilter(possible[i], e, None));
        if |h| > 0 {
          causes := causes + [h[0]];
        }
      }
      assert possible[..|possible|] == possible;
    }

    /** The causes `xHistoryAsync` iterates over: one query per
        predecessor, then `causes.sort()`. */
    method SortedCausesFor(e: State, ghost cf: State -> seq<State>) returns (causes: seq<State>)
      requires Computes(cf, hist.states, reg.byId)
      ensures causes == SortedCauses(hist.states, reg.byId, e) == cf(e)
    {
      var possible := CausalFunction(reg.byId, e.fromId);
      causes := CollectCauses(e, possible);
      causes := SortByTime(causes);
    }

    /** `xHistoryAsync(e, r)` limited to `fuel` levels, where `cf` is the
        explainer's cause map on the current history: the yielded pairs, in
        order.  Its `past` only grows, by the sources of the expanded
        states. */
    method XHistory(e: State, r: int, fuel: nat, ghost cf: State -> seq<State>) returns (out: seq<Explained>)
      requires Computes(cf, hist.states, reg.byId)
      modifies defaults`historyPast
      ensures out == XHistoryOf(cf, e, r, fuel)
      ensures old(defaults.historyPast) <= defaults.historyPast <= old(defaults.historyPast) + {e.fromId} + Origins(out)
      ensures fuel > 0 ==> e.fromId in defaults.historyPast
      decreases fuel, 0
    {
      if fuel == 0 {
        return [];
      }
      if e.fromId !in defaults.historyPast {
        defaults.historyPast := defaults.historyPast + {e.fromId};
      }
      var causes := SortedCausesFor(e, cf);
      out := ExplainAll(causes, r, fuel - 1, cf);
    }

    /** The loop of `xHistoryAsync` over the sorted causes: yield each at
        depth `r`, then what its own explanation yields. */
    method ExplainAll(causes: seq<State>, r: int, fuel: nat, ghost cf: State -> seq<State>) returns (out: seq<Explained>)
      requires Computes(cf, hist.states, reg.byId)
      modifies defaults`historyPast
      ensures out == XHistoryList(cf, causes, r, fuel)
      ensures old(defaults.historyPast) <= defaults.historyPast <= old(defaults.historyPast) + Origins(out)
      decreases fuel, 1
    {
      out := [];
      for i := 0 to |causes|
        invariant out == XHistoryList(cf, causes[..i], r, fuel)
        invariant old(defaults.historyPast) <= defaults.historyPast <= old(defaults.historyPast) + Origins(out)
      {
        var nested := XHistory(causes[i], r + 1, fuel, cf);
        ListStep(cf, causes, i, r, fuel);
        OriginsStep(out, Explained(causes[i], r), nested);
        out := out + [Explained(causes[i], r)] + nested;
      }
      assert causes[..|causes|] == causes;
    }

    /** `xHistory(effect)`: the explanation from depth 1, limited to `fuel`
        levels. */
    method Why(e: State, fuel: nat) returns (out: seq<Explained>)
      modifies defaults`historyPast
      ensures out == XHistoryOf(CauseMap(hist.states, reg.byId), e, 1, fuel)
    {
      CauseMapComputes(hist.states, reg.byId);
      out := XHistory(e, 1, fuel, CauseMap(hist.states, reg.byId));
    }
    /** The query of `xNotAsync` for the last earlier state into the
        effect's target, and the window it opens. */
    method WindowStart(e: State) returns (minTime: int)
      ensures minTime == MinTime(hist.states, e)
    {
      var last := hist.Get(SimilarFilter(e));
      minTime := 0;
      if |last| > 0 {
        minTime := last[0].activationTime + 1;
      }
    }

    /** The loop of `xNotAsync` over the possible causes: the state found
        in the window for each, or the predecessor left to explore. */
    method RealizeCauses(e: State, possible: seq<Id>, minTime: int) returns (causes: seq<State>, toExplore: seq<Id>)
      ensures (causes, toExplore) == Realize(hist.states, e, possible, minTime)
    {
      causes, toExplore := [], [];
      for i := 0 to |possible|
        invariant (causes, toExplore) == Realize(hist.states, e, possible[..i], minTime)
      {
        assert possible[..i + 1][..i] == possible[..i];
        var h := hist.Get(CauseFilter(possible[i], e, Some(minTime)));
        if |h| > 0 {
          causes := causes + [h[0]];
        } else {
          toExplore := toExplore + [possible[i]];
        }
      }
      assert possible[..|possible|] == possible;
    }

    /** `score += resTuple[1]` over the tuples a nested call yields. */
    method AddScores(score: real, ts: seq<Scored>) returns (total: real)
      ensures total == score + SumScores(ts)
    {
      total := score;
      for i := 0 to |ts|
        invariant total == score + SumScores(ts[..i])
      {
        assert ts[..i + 1][..i] == ts[..i];
        total := total + ts[i].score;
      }
      assert ts[..|ts|] == ts;
    }

    /** `xNotAsync(e, r)` with the shared default `past`, where `step` is
        the explainer's step map on the current history and `preds` holds
        every predecessor: the yielded triples, in order, and the `past` it
        leaves. */
    method XNot(e: State, r: int, ghost step: State -> Step, ghost preds: set<Id>) returns (out: seq<Scored>)
      requires r >= 1 && Steps(step, hist.states, reg.byId) && Bounded(step, preds)
      modifies defaults`notPast
      ensures (out, defaults.notPast) == XNotOf(step, preds, reg.rt.stateDefaultId, e, r, old(defaults.notPast))
      decreases (preds + {e.fromId}) - defaults.notPast, 0
    {
      if e.fromId in defaults.notPast {
        return [];
      }
      defaults.notPast := defaults.notPast + {e.fromId};
      var st := StepAt(e, step);
      var score := Score(r, st.realized, st.possible);
      var kids, sum := ExploreAll(e, st.unrealized, r + 1, step, preds);
      out := kids + [Scored(e, score + sum, r)];
    }

    /** The part of `xNotAsync` before its recursion: the window, the
        possible causes, and the realised and unrealised ones among them. */
    method StepAt(e: State, ghost step: State -> Step) returns (st: Step)
      requires Steps(step, hist.states, reg.byId)
      ensures st == StepOf(hist.states, reg.byId, e) == step(e)
    {
      var minTime := WindowStart(e);
      var possible := CausalFunction(reg.byId, e.fromId);
      var causes, toExplore := RealizeCauses(e, possible, minTime);
      st := Step(toExplore, |causes|, |possible|);
    }

    /** The loop of `xNotAsync` over the predecessors left to explore: each
        is explained one level deeper from a hypothetical state, its triples
        are yielded and their scores summed, and the effect's source is put
        back into `past`. */
    method ExploreAll(e: State, cs: seq<Id>, r: int, ghost step: State -> Step, ghost preds: set<Id>)
      returns (out: seq<Scored>, sum: real)
      requires r >= 1 && Steps(step, hist.states, reg.byId) && Bounded(step, preds)
      requires (forall c :: c in cs ==> c in preds) && e.fromId in defaults.notPast
      modifies defaults`notPast
      ensures (out, defaults.notPast) == XNotChildren(step, preds, reg.rt.stateDefaultId, e, cs, r, old(defaults.notPast))
      ensures sum == SumScores(out)
      decreases preds - defaults.notPast, 1
    {
      out, sum := [], 0.0;
      for i := 0 to |cs|
        invariant old(defaults.notPast) <= defaults.notPast && e.fromId in defaults.notPast
        invariant (out, defaults.notPast) == XNotChildren(step, preds, reg.rt.stateDefaultId, e, cs[..i], r, old(defaults.notPast))
        invariant sum == SumScores(out)
      {
        ChildrenStep(step, preds, reg.rt.stateDefaultId, e, cs, i, r, old(defaults.notPast));
        assert (preds + {cs[i]}) - defaults.notPast <= preds - old(defaults.notPast);
        var sub := XNot(Hypothesis(cs[i], e, reg.rt.stateDefaultId), r, step, preds);
        sum := AddScores(sum, sub);
        SumScoresAppend(out, sub);
        out := out + sub;
        assert defaults.notPast + {e.fromId} == defaults.notPast;
        defaults.notPast := defaults.notPast + {e.fromId};
      }
      assert cs[..|cs|] == cs;
    }

    /** `xNot(effect)`: the explanation from depth 1. */
    method WhyNot(e: State) returns (out: seq<Scored>)
      modifies defaults`notPast
      ensures Bounded(StepMap(hist.states, reg.byId), Predecessors(reg.byId))
      ensures (out, defaults.notPast) == XNotOf(StepMap(hist.states, reg.byId), Predecessors(reg.byId), reg.rt.stateDefaultId, e, 1, old(defaults.notPast))
    {
      StepMapBounded(hist.states, reg.byId);
      out := XNot(e, 1, StepMap(hist.states, reg.byId), Predecessors(reg.byId));
    }
  }

  /** Two explainers built over the process's defaults share `past`: once
      the first has explained why not `e`, the second yields nothing for
      `e`, whatever its history. */
  method SharedPast(hist: InMemoryExecutionHistory, hist2: InMemoryExecutionHistory, reg: Registry, defaults: PastDefaults, e: State)
    returns (out1: seq<Scored>, out2: seq<Scored>)
    modifies defaults`notPast
    ensures e.fromId !in old(defaults.notPast) ==> out1 != [] && out1[|out1| - 1].state == e
    ensures e.fromId in defaults.notPast && out2 == []
  {
    var x1 := new SequentialExplainer(hist, reg, defaults);
    out1 := x1.WhyNot(e);
    XNotShape(StepMap(hist.states, reg.byId), Predecessors(reg.byId), reg.rt.stateDefaultId, e, 1, old(defaults.notPast));
    XNotTraversal(StepMap(hist.states, reg.byId), Predecessors(reg.byId), reg.rt.stateDefaultId, e, 1, old(defaults.notPast));
    if out1 != [] {
      assert out1[|out1| - 1].state.fromId in Sources(out1);
    }
    var x2 := new SequentialExplainer(hist2, reg, defaults);
    out2 := x2.WhyNot(e);
  }
}
