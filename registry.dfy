/** The entity registry `Entity.byId`: every domain object registers itself
    under its id when it is constructed, and the constructors wire the
    back-references between objects.  Objects refer to each other by id. */
module Registry {
  import opened Platform

  datatype Kind =
    | AttributeKind | BrfKind | ActionKind | PromotionKind
    | PlanKind | GoalKind | ConflictKind | AgentKind

  /** One registered object, with its lists of references (descriptions are
      not modelled). */
  datatype Entity =
    | Attribute(name: string, relations: seq<Id>)
    | BeliefReviewFunction(agents: seq<Id>, attrs: seq<Id>)
    | Action(plans: seq<Id>)
    | GoalPromotion(name: string, goals: seq<Id>, attrs: seq<Id>)
    | Plan(priority: int, actions: seq<Id>, goals: seq<Id>)
    | Goal(promotions: seq<Id>, plans: seq<Id>, conflicts: seq<Id>, agents: seq<Id>)
    | Conflict(goals: seq<Id>, agents: seq<Id>)
    | Agent(brfs: seq<Id>, goals: seq<Id>, conflicts: seq<Id>)

  function KindOf(e: Entity): Kind
  {
    match e
    case Attribute(_, _) => AttributeKind
    case BeliefReviewFunction(_, _) => BrfKind
    case Action(_) => ActionKind
    case GoalPromotion(_, _, _) => PromotionKind
    case Plan(_, _, _) => PlanKind
    case Goal(_, _, _, _) => GoalKind
    case Conflict(_, _) => ConflictKind
    case Agent(_, _, _) => AgentKind
  }

  /** The entities that read or write container paths and so own `attrs`. */
  predicate HasAttrs(e: Entity)
  {
    e.BeliefReviewFunction? || e.GoalPromotion?
  }

  function AttrsOf(e: Entity): seq<Id>
  {
    if HasAttrs(e) then e.attrs else []
  }

  function RelationsOf(e: Entity): seq<Id>
  {
    if e.Attribute? then e.relations else []
  }

  predicate IsKind(m: map<Id, Entity>, id: Id, k: Kind)
  {
    id in m && KindOf(m[id]) == k
  }

  ghost predicate AllOf(m: map<Id, Entity>, ids: seq<Id>, k: Kind)
  {
    forall x :: x in ids ==> IsKind(m, x, k)
  }

  /** Every reference of `e` names a registered entity of the expected kind. */
  ghost predicate EntityTyped(m: map<Id, Entity>, e: Entity)
  {
    match e
    case Attribute(_, rel) => forall x :: x in rel ==> x in m && HasAttrs(m[x])
    case BeliefReviewFunction(ags, ats) => AllOf(m, ags, AgentKind) && AllOf(m, ats, AttributeKind)
    case Action(pls) => AllOf(m, pls, PlanKind)
    case GoalPromotion(_, gls, ats) => AllOf(m, gls, GoalKind) && AllOf(m, ats, AttributeKind)
    case Plan(_, acts, gls) => AllOf(m, acts, ActionKind) && AllOf(m, gls, GoalKind)
    case Goal(prs, pls, cfs, ags) =>
      AllOf(m, prs, PromotionKind) && AllOf(m, pls, PlanKind) && AllOf(m, cfs, ConflictKind) && AllOf(m, ags, AgentKind)
    case Conflict(gls, ags) => AllOf(m, gls, GoalKind) && AllOf(m, ags, AgentKind)
    case Agent(bs, gls, cfs) => AllOf(m, bs, BrfKind) && AllOf(m, gls, GoalKind) && AllOf(m, cfs, ConflictKind)
  }

  ghost predicate Typed(m: map<Id, Entity>)
  {
    forall id :: id in m ==> EntityTyped(m, m[id])
  }

  ghost predicate NoDup<T>(s: seq<T>)
  {
    forall i, j :: 0 <= i < j < |s| ==> s[i] != s[j]
  }

  /** The attribute links are mirrored and never repeated: an attribute is in
      an entity's `attrs` exactly when the entity is in the attribute's
      `relations`. */
  ghost predicate LinksMirrored(m: map<Id, Entity>)
  {
    Mirror(m) && LinksNoDup(m)
  }

  ghost predicate Mirror(m: map<Id, Entity>)
  {
    forall e, a :: e in m && a in m && m[a].Attribute? && HasAttrs(m[e]) ==>
      (a in AttrsOf(m[e]) <==> e in RelationsOf(m[a]))
  }

  ghost predicate LinksNoDup(m: map<Id, Entity>)
  {
    forall id :: id in m ==> NoDup(AttrsOf(m[id])) && NoDup(RelationsOf(m[id]))
  }

  ghost predicate WellFormed(m: map<Id, Entity>)
  {
    Typed(m) && LinksMirrored(m)
  }

  /** `m2` keeps every entity of `m`, with its kind. */
  ghost predicate Extends(m: map<Id, Entity>, m2: map<Id, Entity>)
  {
    forall id :: id in m ==> id in m2 && KindOf(m2[id]) == KindOf(m[id])
  }

  /** An entity with its attribute links erased. */
  function Unlinked(e: Entity): Entity
  {
    match e
    case Attribute(n, _) => Attribute(n, [])
    case BeliefReviewFunction(ags, _) => BeliefReviewFunction(ags, [])
    case GoalPromotion(n, gls, _) => GoalPromotion(n, gls, [])
    case _ => e
  }

  /** `m2` differs from `m` at most in new entities and in attribute links:
      what the instrumented accessors do to the registry. */
  ghost predicate LinksOnly(m: map<Id, Entity>, m2: map<Id, Entity>)
  {
    forall id :: id in m ==> id in m2 && Unlinked(m2[id]) == Unlinked(m[id])
  }

  lemma LinksOnlyTransitive(m1: map<Id, Entity>, m2: map<Id, Entity>, m3: map<Id, Entity>)
    requires LinksOnly(m1, m2) && LinksOnly(m2, m3)
    ensures LinksOnly(m1, m3)
  {
  }

  lemma LinksOnlyExtends(m: map<Id, Entity>, m2: map<Id, Entity>)
    requires LinksOnly(m, m2)
    ensures Extends(m, m2)
  {
    forall id | id in m ensures id in m2 && KindOf(m2[id]) == KindOf(m[id]) {
      assert KindOf(Unlinked(m2[id])) == KindOf(m2[id]);
      assert KindOf(Unlinked(m[id])) == KindOf(m[id]);
    }
  }

  lemma ExtendsTransitive(m1: map<Id, Entity>, m2: map<Id, Entity>, m3: map<Id, Entity>)
    requires Extends(m1, m2) && Extends(m2, m3)
    ensures Extends(m1, m3)
  {
  }

  lemma EntityTypedExtends(m: map<Id, Entity>, m2: map<Id, Entity>, e: Entity)
    requires EntityTyped(m, e) && Extends(m, m2)
    ensures EntityTyped(m2, e)
  {
  }

  /** Which back-reference list a constructor appends to. */
  datatype BackField = PlansOf | GoalsOf | ConflictsOf | AgentsOf

  /** `target.<field>.append(x)`; entities without that list are unchanged. */
  function Append(e: Entity, f: BackField, x: Id): Entity
  {
    match (e, f)
    case (Action(pls), PlansOf) => Action(pls + [x])
    case (GoalPromotion(n, gls, ats), GoalsOf) => GoalPromotion(n, gls + [x], ats)
    case (Plan(p, acts, gls), GoalsOf) => Plan(p, acts, gls + [x])
    case (Goal(prs, pls, cfs, ags), ConflictsOf) => Goal(prs, pls, cfs + [x], ags)
    case (Goal(prs, pls, cfs, ags), AgentsOf) => Goal(prs, pls, cfs, ags + [x])
    case (BeliefReviewFunction(ags, ats), AgentsOf) => BeliefReviewFunction(ags + [x], ats)
    case (Conflict(gls, ags), AgentsOf) => Conflict(gls, ags + [x])
    case _ => e
  }

  /** The kind of entity a back-reference list holds. */
  function BackKind(f: BackField, owner: Kind): Kind
  {
    match f
    case PlansOf => PlanKind
    case GoalsOf => GoalKind
    case ConflictsOf => ConflictKind
    case AgentsOf => AgentKind
  }

  /** `for t in targets: t.<field>.append(x)`, in list order. */
  function AddBackRefs(m: map<Id, Entity>, targets: seq<Id>, f: BackField, x: Id): map<Id, Entity>
    decreases |targets|
  {
    if targets == [] then m
    else
      var m1 := AddBackRefs(m, targets[..|targets| - 1], f, x);
      var t := targets[|targets| - 1];
      if t in m1 then m1[t := Append(m1[t], f, x)] else m1
  }

  lemma AppendKeeps(e: Entity, f: BackField, x: Id)
    ensures KindOf(Append(e, f, x)) == KindOf(e)
    ensures AttrsOf(Append(e, f, x)) == AttrsOf(e)
    ensures RelationsOf(Append(e, f, x)) == RelationsOf(e)
  {
  }

  /** Appending a reference of the right kind keeps an entity well typed. */
  lemma AppendTyped(m: map<Id, Entity>, e: Entity, f: BackField, x: Id)
    requires EntityTyped(m, e)
    requires IsKind(m, x, BackKind(f, KindOf(e)))
    ensures EntityTyped(m, Append(e, f, x))
  {
  }

  /** Replacing one entity by another of the same kind, with the same
      attribute links and well-typed references, keeps a registry well
      formed. */
  lemma ReplaceWellFormed(m: map<Id, Entity>, t: Id, e2: Entity)
    requires WellFormed(m) && t in m
    requires KindOf(e2) == KindOf(m[t]) && AttrsOf(e2) == AttrsOf(m[t]) && RelationsOf(e2) == RelationsOf(m[t])
    requires EntityTyped(m, e2)
    ensures WellFormed(m[t := e2]) && Extends(m, m[t := e2])
  {
    var m2 := m[t := e2];
    assert Extends(m, m2);
    forall id | id in m2 ensures EntityTyped(m2, m2[id]) {
      EntityTypedExtends(m, m2, m2[id]);
    }
    forall id | id in m2
      ensures AttrsOf(m2[id]) == AttrsOf(m[id]) && RelationsOf(m2[id]) == RelationsOf(m[id])
      ensures m2[id].Attribute? == m[id].Attribute? && HasAttrs(m2[id]) == HasAttrs(m[id])
    {
    }
  }

  /** A well-formed registry stays well formed when the back-references to a
      registered entity `x` of the right kind are appended, and no entity
      changes kind. */
  lemma {:induction false} AddBackRefsWellFormed(m: map<Id, Entity>, targets: seq<Id>, f: BackField, x: Id, k: Kind)
    requires WellFormed(m)
    requires IsKind(m, x, BackKind(f, k))
    requires AllOf(m, targets, k)
    ensures var m2 := AddBackRefs(m, targets, f, x);
            WellFormed(m2) && Extends(m, m2) && m2.Keys == m.Keys
    decreases |targets|
  {
    if targets != [] {
      var init := targets[..|targets| - 1];
      assert AllOf(m, init, k) by {
        forall y | y in init ensures IsKind(m, y, k) { assert y in targets; }
      }
      AddBackRefsWellFormed(m, init, f, x, k);
      var m1 := AddBackRefs(m, init, f, x);
      var t := targets[|targets| - 1];
      assert IsKind(m, t, k);
      AppendKeeps(m1[t], f, x);
      AppendTyped(m1, m1[t], f, x);
      ReplaceWellFormed(m1, t, Append(m1[t], f, x));
      ExtendsTransitive(m, m1, m1[t := Append(m1[t], f, x)]);
    }
  }

  /** A fresh entity whose references are well typed and that has no
      attribute links can be added to a well-formed registry. */
  lemma AddFreshWellFormed(m: map<Id, Entity>, id: Id, e: Entity)
    requires WellFormed(m) && id !in m
    requires EntityTyped(m, e) && AttrsOf(e) == [] && RelationsOf(e) == []
    ensures WellFormed(m[id := e]) && Extends(m, m[id := e])
  {
    var m2 := m[id := e];
    assert Extends(m, m2);
    forall x | x in m2 ensures EntityTyped(m2, m2[x]) {
      EntityTypedExtends(m, m2, m2[x]);
    }
    forall a | a in m && m[a].Attribute? ensures id !in RelationsOf(m[a]) {
      assert EntityTyped(m, m[a]);
    }
    forall x | x in m && HasAttrs(m[x]) ensures id !in AttrsOf(m[x]) {
      assert EntityTyped(m, m[x]);
    }
  }

  /** Appending `a` to `e.attrs` and `e` to `a.relations` when the link is
      absent keeps the links mirrored and free of repeats. */
  lemma LinkWellFormed(m: map<Id, Entity>, e: Id, a: Id)
    requires WellFormed(m)
    requires e in m && HasAttrs(m[e]) && IsKind(m, a, AttributeKind)
    requires a !in m[e].attrs
    ensures var m2 := m[e := m[e].(attrs := m[e].attrs + [a])][a := m[a].(relations := m[a].relations + [e])];
            WellFormed(m2) && Extends(m, m2) && m2.Keys == m.Keys
  {
    var m2 := m[e := m[e].(attrs := m[e].attrs + [a])][a := m[a].(relations := m[a].relations + [e])];
    assert Extends(m, m2);
    LinkTyped(m, e, a);
    LinkMirror(m, e, a);
    LinkNoDup(m, e, a);
  }

  /** Linking changes the two link lists and nothing else, and puts each
      end in the other's list. */
  lemma LinkLinksOnly(m: map<Id, Entity>, e: Id, a: Id)
    requires e in m && HasAttrs(m[e]) && IsKind(m, a, AttributeKind)
    ensures var m2 := m[e := m[e].(attrs := m[e].attrs + [a])][a := m[a].(relations := m[a].relations + [e])];
            LinksOnly(m, m2) && a in AttrsOf(m2[e]) && e in RelationsOf(m2[a])
  {
  }

  /** An attribute already in an entity's `attrs` relates back to it. */
  lemma LinkedAlready(m: map<Id, Entity>, e: Id, a: Id)
    requires WellFormed(m)
    requires e in m && HasAttrs(m[e]) && IsKind(m, a, AttributeKind)
    requires a in AttrsOf(m[e])
    ensures e in RelationsOf(m[a]) && LinksOnly(m, m)
  {
  }

  lemma LinkTyped(m: map<Id, Entity>, e: Id, a: Id)
    requires Typed(m)
    requires e in m && HasAttrs(m[e]) && IsKind(m, a, AttributeKind)
    ensures Typed(m[e := m[e].(attrs := m[e].attrs + [a])][a := m[a].(relations := m[a].relations + [e])])
  {
    var ee := m[e].(attrs := m[e].attrs + [a]);
    var aa := m[a].(relations := m[a].relations + [e]);
    var m2 := m[e := ee][a := aa];
    assert Extends(m, m2);
    forall id | id in m2 ensures EntityTyped(m2, m2[id]) {
      EntityTypedExtends(m, m2, m[id]);
      if id == a {
        assert EntityTyped(m2, aa);
      } else if id == e {
        assert EntityTyped(m2, ee);
      }
    }
  }

  lemma LinkMirror(m: map<Id, Entity>, e: Id, a: Id)
    requires Mirror(m)
    requires e in m && HasAttrs(m[e]) && IsKind(m, a, AttributeKind)
    ensures Mirror(m[e := m[e].(attrs := m[e].attrs + [a])][a := m[a].(relations := m[a].relations + [e])])
  {
    var m2 := m[e := m[e].(attrs := m[e].attrs + [a])][a := m[a].(relations := m[a].relations + [e])];
    assert e != a;
    forall x, y | x in m2 && y in m2 && m2[y].Attribute? && HasAttrs(m2[x])
      ensures y in AttrsOf(m2[x]) <==> x in RelationsOf(m2[y])
    {
      assert AttrsOf(m2[x]) == if x == e then AttrsOf(m[x]) + [a] else AttrsOf(m[x]);
      assert RelationsOf(m2[y]) == if y == a then RelationsOf(m[y]) + [e] else RelationsOf(m[y]);
      assert y in AttrsOf(m[x]) <==> x in RelationsOf(m[y]);
    }
  }

  lemma LinkNoDup(m: map<Id, Entity>, e: Id, a: Id)
    requires Mirror(m) && LinksNoDup(m)
    requires e in m && HasAttrs(m[e]) && IsKind(m, a, AttributeKind)
    requires a !in m[e].attrs
    ensures LinksNoDup(m[e := m[e].(attrs := m[e].attrs + [a])][a := m[a].(relations := m[a].relations + [e])])
  {
    var m2 := m[e := m[e].(attrs := m[e].attrs + [a])][a := m[a].(relations := m[a].relations + [e])];
    assert e != a;
    assert e !in RelationsOf(m[a]);
    forall id | id in m2 ensures NoDup(AttrsOf(m2[id])) && NoDup(RelationsOf(m2[id])) {
      assert NoDup(AttrsOf(m[id])) && NoDup(RelationsOf(m[id]));
    }
  }

  class Registry {
    /** `Entity.byId` */
    var byId: map<Id, Entity>
    const rt: Runtime

    ghost predicate Valid()
      reads this, rt
    {
      WellFormed(byId) && byId.Keys <= rt.issued
    }

    constructor (rt: Runtime)
      ensures this.rt == rt && byId == map[] && Valid()
    {
      this.rt := rt;
      byId := map[];
    }

    /** The id handling of `Entity.__init__`: "" asks for a generated id. */
    method TakeId(id: Id) returns (nid: Id)
      requires Valid()
      requires id == "" || id !in rt.issued
      modifies rt`issued
      ensures nid !in old(rt.issued) && nid != "" && Valid()
      ensures id != "" ==> nid == id
      ensures rt.issued == old(rt.issued) + {nid}
    {
      if id == "" {
        nid := rt.GenId();
      } else {
        nid := id;
        rt.Claim(id);
      }
    }

    /** `Attribute(name=...)`: registered with no relations yet. */
    method NewAttribute(name: string, id: Id) returns (aid: Id)
      requires Valid()
      requires id == "" || id !in rt.issued
      modifies this, rt`issued
      ensures Valid() && aid !in old(byId) && (id != "" ==> aid == id)
      ensures byId == old(byId)[aid := Attribute(name, [])]
      ensures LinksOnly(old(byId), byId)
      ensures rt.issued == old(rt.issued) + {aid}
    {
      aid := TakeId(id);
      AddFreshWellFormed(byId, aid, Attribute(name, []));
      byId := byId[aid := Attribute(name, [])];
    }

    /** `BeliefReviewFunction(f)`: the callback itself is not stored. */
    method NewBeliefReviewFunction(id: Id) returns (bid: Id)
      requires Valid()
      requires id == "" || id !in rt.issued
      modifies this, rt`issued
      ensures Valid() && bid !in old(byId) && (id != "" ==> bid == id)
      ensures byId == old(byId)[bid := BeliefReviewFunction([], [])]
      ensures rt.issued == old(rt.issued) + {bid}
    {
      bid := TakeId(id);
      AddFreshWellFormed(byId, bid, BeliefReviewFunction([], []));
      byId := byId[bid := BeliefReviewFunction([], [])];
    }

    /** `Action(f)` */
    method NewAction(id: Id) returns (aid: Id)
      requires Valid()
      requires id == "" || id !in rt.issued
      modifies this, rt`issued
      ensures Valid() && aid !in old(byId) && (id != "" ==> aid == id)
      ensures byId == old(byId)[aid := Action([])]
      ensures rt.issued == old(rt.issued) + {aid}
    {
      aid := TakeId(id);
      AddFreshWellFormed(byId, aid, Action([]));
      byId := byId[aid := Action([])];
    }

    /** `GoalPromotion(name, f)` */
    method NewGoalPromotion(name: string, id: Id) returns (pid: Id)
      requires Valid()
      requires id == "" || id !in rt.issued
      modifies this, rt`issued
      ensures Valid() && pid !in old(byId) && (id != "" ==> pid == id)
      ensures byId == old(byId)[pid := GoalPromotion(name, [], [])]
      ensures rt.issued == old(rt.issued) + {pid}
    {
      pid := TakeId(id);
      AddFreshWellFormed(byId, pid, GoalPromotion(name, [], []));
      byId := byId[pid := GoalPromotion(name, [], [])];
    }

    /** `for t in targets: t.<field>.append(x)` */
    method AppendToAll(targets: seq<Id>, f: BackField, x: Id, ghost k: Kind)
      requires Valid()
      requires IsKind(byId, x, BackKind(f, k)) && AllOf(byId, targets, k)
      modifies this
      ensures Valid() && Extends(old(byId), byId)
      ensures byId == AddBackRefs(old(byId), targets, f, x)
    {
      ghost var m0 := byId;
      for i := 0 to |targets|
        invariant byId == AddBackRefs(m0, targets[..i], f, x)
      {
        assert targets[..i + 1][..i] == targets[..i];
        var t := targets[i];
        if t in byId {
          byId := byId[t := Append(byId[t], f, x)];
        }
      }
      assert targets[..|targets|] == targets;
      AddBackRefsWellFormed(m0, targets, f, x, k);
    }

    /** `Plan(priority, actions)`: each action gets the plan appended to its
        `plans`, once per occurrence in `actions`. */
    method NewPlan(priority: int, actions: seq<Id>, id: Id) returns (pid: Id)
      requires Valid() && AllOf(byId, actions, ActionKind)
      requires id == "" || id !in rt.issued
      modifies this, rt`issued
      ensures Valid() && pid !in old(byId) && (id != "" ==> pid == id)
      ensures byId == AddBackRefs(old(byId)[pid := Plan(priority, actions, [])], actions, PlansOf, pid)
      ensures rt.issued == old(rt.issued) + {pid}
    {
      pid := TakeId(id);
      AddFreshWellFormed(byId, pid, Plan(priority, actions, []));
      byId := byId[pid := Plan(priority, actions, [])];
      AppendToAll(actions, PlansOf, pid, ActionKind);
    }

    /** `Goal(promotions, plans)`: each promotion and each plan gets the goal
        appended to its `goals`. */
    method NewGoal(promotions: seq<Id>, plans: seq<Id>, id: Id) returns (gid: Id)
      requires Valid() && AllOf(byId, promotions, PromotionKind) && AllOf(byId, plans, PlanKind)
      requires id == "" || id !in rt.issued
      modifies this, rt`issued
      ensures Valid() && gid !in old(byId) && (id != "" ==> gid == id)
      ensures byId == AddBackRefs(AddBackRefs(old(byId)[gid := Goal(promotions, plans, [], [])],
                                              promotions, GoalsOf, gid), plans, GoalsOf, gid)
      ensures rt.issued == old(rt.issued) + {gid}
    {
      gid := TakeId(id);
      AddFreshWellFormed(byId, gid, Goal(promotions, plans, [], []));
      byId := byId[gid := Goal(promotions, plans, [], [])];
      AppendToAll(promotions, GoalsOf, gid, PromotionKind);
      AppendToAll(plans, GoalsOf, gid, PlanKind);
    }

    /** `Conflict(goals)`: `goalsIds` is the same list of ids, and each goal
        gets the conflict appended to its `conflicts`. */
    method NewConflict(goals: seq<Id>, id: Id) returns (cid: Id)
      requires Valid() && AllOf(byId, goals, GoalKind)
      requires id == "" || id !in rt.issued
      modifies this, rt`issued
      ensures Valid() && cid !in old(byId) && (id != "" ==> cid == id)
      ensures byId == AddBackRefs(old(byId)[cid := Conflict(goals, [])], goals, ConflictsOf, cid)
      ensures rt.issued == old(rt.issued) + {cid}
    {
      cid := TakeId(id);
      AddFreshWellFormed(byId, cid, Conflict(goals, []));
      byId := byId[cid := Conflict(goals, [])];
      AppendToAll(goals, ConflictsOf, cid, GoalKind);
    }

    /** `Agent(beliefs, channel, brfs, goals, conflicts)`: each brf, goal and
        conflict gets the agent appended to its `agents`.  The two containers
        are held by the processor, not by the registry. */
    method NewAgent(brfs: seq<Id>, goals: seq<Id>, conflicts: seq<Id>, id: Id) returns (aid: Id)
      requires Valid()
      requires AllOf(byId, brfs, BrfKind) && AllOf(byId, goals, GoalKind) && AllOf(byId, conflicts, ConflictKind)
      requires id == "" || id !in rt.issued
      modifies this, rt`issued
      ensures Valid() && aid !in old(byId) && (id != "" ==> aid == id)
      ensures byId == AddBackRefs(AddBackRefs(AddBackRefs(old(byId)[aid := Agent(brfs, goals, conflicts)],
                                              brfs, AgentsOf, aid), goals, AgentsOf, aid), conflicts, AgentsOf, aid)
      ensures rt.issued == old(rt.issued) + {aid}
    {
      aid := TakeId(id);
      AddFreshWellFormed(byId, aid, Agent(brfs, goals, conflicts));
      byId := byId[aid := Agent(brfs, goals, conflicts)];
      AppendToAll(brfs, AgentsOf, aid, BrfKind);
      AppendToAll(goals, AgentsOf, aid, GoalKind);
      AppendToAll(conflicts, AgentsOf, aid, ConflictKind);
    }

    /** The linking step of the instrumented accessors: unless the attribute
        is already among the entity's `attrs`, append it there and append the
        entity to the attribute's `relations`. */
    method Link(e: Id, a: Id)
      requires Valid()
      requires e in byId && HasAttrs(byId[e]) && IsKind(byId, a, AttributeKind)
      modifies this
      ensures Valid() && LinksOnly(old(byId), byId) && byId.Keys == old(byId).Keys
      ensures a in AttrsOf(byId[e]) && e in RelationsOf(byId[a])
      ensures a in old(byId)[e].attrs ==> byId == old(byId)
      ensures a !in old(byId)[e].attrs ==>
        byId == old(byId)[e := old(byId)[e].(attrs := old(byId)[e].attrs + [a])]
                         [a := old(byId)[a].(relations := old(byId)[a].relations + [e])]
    {
      if a !in byId[e].attrs {
        LinkWellFormed(byId, e, a);
        LinkLinksOnly(byId, e, a);
        byId := byId[e := byId[e].(attrs := byId[e].attrs + [a])][a := byId[a].(relations := byId[a].relations + [e])];
      } else {
        LinkedAlready(byId, e, a);
      }
    }
  }
}
