/** `SequentialProcessor`: one deliberation (belief review, then goal
    promotion into the intentions queue) and one pass over the intentions
    queue (conflict resolution, plan and action execution), each recording
    its steps in the execution history. */
module Processor {
  import opened Values
  import opened Platform
  import opened Insort
  import opened Registry
  import opened Events
  import opened History
  import opened Container
  import opened Goals

  /** One use a belief review function makes of the four accessors it is
      given: the environment, belief and channel getters and the belief
      setter. */
  datatype Access =
    | ReadEnv(path: string)
    | ReadBelief(path: string)
    | ReadChannel(path: string)
    | WriteBelief(path: string, value: Value)

  /** A belief review function, as what one call does: given its id and the
      environment, beliefs and channel at the call, the accesses it makes in
      order. */
  type ReviewFn = (Id, Value, Value, Value) -> seq<Access>

  /** What one access does to the beliefs, or TypeError when it raises. */
  function Apply(a: Access, env: Value, b: Value, ch: Value): Result<Value>
  {
    match a
    case ReadEnv(p) => if Read(env, Split(p)).TypeError? then TypeError else Ok(b)
    case ReadBelief(p) => if Read(b, Split(p)).TypeError? then TypeError else Ok(b)
    case ReadChannel(p) => if Read(ch, Split(p)).TypeError? then TypeError else Ok(b)
    case WriteBelief(p, v) => if SetData(b, p, v).TypeError? then TypeError else Ok(SetData(b, p, v).value.1)
  }

  /** What one review call leaves in the beliefs, or TypeError when an access
      raises. */
  function RunAccesses(acc: seq<Access>, env: Value, b: Value, ch: Value): Result<Value>
    decreases |acc|
  {
    if acc == [] then Ok(b)
    else
      match Apply(acc[0], env, b, ch)
      case TypeError => TypeError
      case Ok(b1) => RunAccesses(acc[1..], env, b1, ch)
  }

  /** The belief review phase: each of the agent's review functions in turn,
      each seeing the beliefs its predecessors left. */
  function Revise(brfs: seq<Id>, f: ReviewFn, env: Value, b: Value, ch: Value): Result<Value>
    decreases |brfs|
  {
    if brfs == [] then Ok(b)
    else
      match RunAccesses(f(brfs[0], env, b, ch), env, b, ch)
      case TypeError => TypeError
      case Ok(b1) => Revise(brfs[1..], f, env, b1, ch)
  }

  /** The data a reading access looks in. */
  function ReadFrom(a: Access, env: Value, b: Value, ch: Value): Value
  {
    if a.ReadEnv? then env else if a.ReadBelief? then b else ch
  }

  /** A reading access raises exactly when the `get` of the container it
      names raises, and changes nothing. */
  lemma ApplyRead(a: Access, env: Value, b: Value, ch: Value)
    requires !a.WriteBelief?
    ensures Apply(a, env, b, ch) == if Read(ReadFrom(a, env, b, ch), Split(a.path)).Ok? then Ok(b) else TypeError
  {
  }

  /** A write access raises exactly when `set` does, and leaves what `set`
      makes of the beliefs. */
  lemma ApplyWrite(p: string, v: Value, env: Value, b: Value, ch: Value)
    ensures Apply(WriteBelief(p, v), env, b, ch) == if SetData(b, p, v).Ok? then Ok(SetData(b, p, v).value.1) else TypeError
  {
  }

  /** The beliefs one review call leaves behind, whether or not it raises:
      the accesses write into the beliefs in place, so a raising access
      finds them as the accesses before it left them, and so they stay. */
  function AccessesLeave(acc: seq<Access>, env: Value, b: Value, ch: Value): Value
    decreases |acc|
  {
    if acc == [] then b
    else
      match Apply(acc[0], env, b, ch)
      case TypeError => b
      case Ok(b1) => AccessesLeave(acc[1..], env, b1, ch)
  }

  /** The beliefs the belief review phase leaves behind: after the last
      review function, or as the raising one left them. */
  function ReviseLeave(brfs: seq<Id>, f: ReviewFn, env: Value, b: Value, ch: Value): Value
    decreases |brfs|
  {
    if brfs == [] then b
    else
      var acc := f(brfs[0], env, b, ch);
      match RunAccesses(acc, env, b, ch)
      case TypeError => AccessesLeave(acc, env, b, ch)
      case Ok(b1) => ReviseLeave(brfs[1..], f, env, b1, ch)
  }

  /** A review call that does not raise leaves what `RunAccesses` says. */
  lemma {:induction false} RunAccessesLeaves(acc: seq<Access>, env: Value, b: Value, ch: Value)
    ensures RunAccesses(acc, env, b, ch).Ok? ==> RunAccesses(acc, env, b, ch) == Ok(AccessesLeave(acc, env, b, ch))
    decreases |acc|
  {
    if acc != [] && Apply(acc[0], env, b, ch).Ok? {
      RunAccessesLeaves(acc[1..], env, Apply(acc[0], env, b, ch).value, ch);
    }
  }

  /** A phase that does not raise leaves what `Revise` says. */
  lemma {:induction false} ReviseLeaves(brfs: seq<Id>, f: ReviewFn, env: Value, b: Value, ch: Value)
    ensures Revise(brfs, f, env, b, ch).Ok? ==> Revise(brfs, f, env, b, ch) == Ok(ReviseLeave(brfs, f, env, b, ch))
    decreases |brfs|
  {
    if brfs != [] {
      var r := RunAccesses(f(brfs[0], env, b, ch), env, b, ch);
      if r.Ok? {
        ReviseLeaves(brfs[1..], f, env, r.value, ch);
      }
    }
  }

  /** The accesses after a stretch that does not raise continue from the
      beliefs that stretch left. */
  lemma {:induction false} AccessesLeaveJoin(pre: seq<Access>, rest: seq<Access>, env: Value, b: Value, ch: Value)
    requires RunAccesses(pre, env, b, ch).Ok?
    ensures AccessesLeave(pre + rest, env, b, ch) == AccessesLeave(rest, env, RunAccesses(pre, env, b, ch).value, ch)
    decreases |pre|
  {
    if pre == [] {
      assert pre + rest == rest;
    } else {
      assert (pre + rest)[0] == pre[0] && (pre + rest)[1..] == pre[1..] + rest;
      AccessesLeaveJoin(pre[1..], rest, env, Apply(pre[0], env, b, ch).value, ch);
    }
  }

  /** A raising access does not undo the writes before it: the beliefs are
      left as the accesses before it made them. */
  lemma RaiseKeepsEarlierWrites(pre: seq<Access>, a: Access, rest: seq<Access>, env: Value, b: Value, ch: Value)
    requires RunAccesses(pre, env, b, ch).Ok?
    requires Apply(a, env, RunAccesses(pre, env, b, ch).value, ch).TypeError?
    ensures RunAccesses(pre + [a] + rest, env, b, ch).TypeError?
    ensures AccessesLeave(pre + [a] + rest, env, b, ch) == RunAccesses(pre, env, b, ch).value
  {
    assert pre + [a] + rest == pre + ([a] + rest);
    AccessesLeaveJoin(pre, [a] + rest, env, b, ch);
    RunAccessesJoin(pre, [a] + rest, env, b, ch);
  }

  /** `RunAccesses` over a stretch that does not raise and the rest. */
  lemma {:induction false} RunAccessesJoin(pre: seq<Access>, rest: seq<Access>, env: Value, b: Value, ch: Value)
    requires RunAccesses(pre, env, b, ch).Ok?
    ensures RunAccesses(pre + rest, env, b, ch) == RunAccesses(rest, env, RunAccesses(pre, env, b, ch).value, ch)
    decreases |pre|
  {
    if pre == [] {
      assert pre + rest == rest;
    } else {
      assert (pre + rest)[0] == pre[0] && (pre + rest)[1..] == pre[1..] + rest;
      RunAccessesJoin(pre[1..], rest, env, Apply(pre[0], env, b, ch).value, ch);
    }
  }

  /** `Revise` and `ReviseLeave` from position `i`: the review function
      there runs first. */
  lemma ReviseStep(brfs: seq<Id>, f: ReviewFn, env: Value, b: Value, ch: Value, i: nat)
    requires i < |brfs|
    ensures Revise(brfs[i..], f, env, b, ch) ==
              match RunAccesses(f(brfs[i], env, b, ch), env, b, ch)
              case TypeError => TypeError
              case Ok(b1) => Revise(brfs[i + 1..], f, env, b1, ch)
    ensures ReviseLeave(brfs[i..], f, env, b, ch) ==
              match RunAccesses(f(brfs[i], env, b, ch), env, b, ch)
              case TypeError => AccessesLeave(f(brfs[i], env, b, ch), env, b, ch)
              case Ok(b1) => ReviseLeave(brfs[i + 1..], f, env, b1, ch)
  {
    assert brfs[i..][1..] == brfs[i + 1..];
  }

  /** The phase from beliefs `b0`, after its first `i` review functions left
      `b`: what remains of it gives the same outcome and leaves the same
      beliefs. */
  ghost predicate ReviewsOn(brfs: seq<Id>, f: ReviewFn, env: Value, b0: Value, ch: Value, b: Value, i: nat)
  {
    i <= |brfs| && Revise(brfs, f, env, b0, ch) == Revise(brfs[i..], f, env, b, ch) &&
    ReviseLeave(brfs, f, env, b0, ch) == ReviseLeave(brfs[i..], f, env, b, ch)
  }

  predicate IsWrite(a: Access)
  {
    a.WriteBelief?
  }

  /** Reads never change the beliefs: a review that only reads leaves them as
      they were (or raises). */
  lemma {:induction false} ReadsKeepBeliefs(acc: seq<Access>, env: Value, b: Value, ch: Value)
    requires forall k :: 0 <= k < |acc| ==> !IsWrite(acc[k])
    ensures RunAccesses(acc, env, b, ch) == Ok(b) || RunAccesses(acc, env, b, ch).TypeError?
    decreases |acc|
  {
    if acc != [] {
      assert !IsWrite(acc[0]);
      ReadsKeepBeliefs(acc[1..], env, b, ch);
    }
  }

  /** A review whose last access writes `v` at a non-empty path leaves `v`
      there, whatever came before. */
  lemma {:induction false} LastWriteWins(acc: seq<Access>, p: string, v: Value, env: Value, b: Value, ch: Value)
    requires p != ""
    requires RunAccesses(acc + [WriteBelief(p, v)], env, b, ch).Ok?
    ensures Find(RunAccesses(acc + [WriteBelief(p, v)], env, b, ch).value, Split(p)) == Some(v)
    decreases |acc|
  {
    var w := [WriteBelief(p, v)];
    if acc == [] {
      assert acc + w == w;
    } else {
      assert (acc + w)[1..] == acc[1..] + w;
      LastWriteWins(acc[1..], p, v, env, Apply(acc[0], env, b, ch).value, ch);
    }
  }

  /** The target promotions of a goal and their names. */
  function PromotionsOf(m: map<Id, Entity>, g: Id): seq<Id>
  {
    if g in m && m[g].Goal? then m[g].promotions else []
  }

  function NameOf(m: map<Id, Entity>, p: Id): string
  {
    if p in m && m[p].GoalPromotion? then m[p].name else ""
  }

  function Names(m: map<Id, Entity>, prs: seq<Id>): (ns: seq<string>)
    ensures |ns| == |prs| && forall k :: 0 <= k < |prs| ==> ns[k] == NameOf(m, prs[k])
  {
    if prs == [] then [] else [NameOf(m, prs[0])] + Names(m, prs[1..])
  }

  function ClimbGoal(m: map<Id, Entity>, c: Clone, f: PromotionFn, b: Value): Result<Clone>
  {
    Climb(c, PromotionsOf(m, c.goalId), Names(m, PromotionsOf(m, c.goalId)), f, b)
  }

  /** One clone of the promotion phase: climbed, and inserted into the queue
      when it reaches its final state. */
  function EnqueueOne(q: seq<Clone>, c: Clone, m: map<Id, Entity>, f: PromotionFn, b: Value): seq<Clone>
  {
    var r := ClimbGoal(m, c, f, b);
    if r.Ok? && IsInFinalState(r.value, |PromotionsOf(m, r.value.goalId)|) then Insert(q, r.value, Priority) else q
  }

  /** The promotion phase: the clones that reach their final state are
      inserted into the queue, in the order of the agent's goals. */
  function Enqueue(q: seq<Clone>, clones: seq<Clone>, m: map<Id, Entity>, f: PromotionFn, b: Value): seq<Clone>
    decreases |clones|
  {
    if clones == [] then q
    else EnqueueOne(Enqueue(q, clones[..|clones| - 1], m, f, b), clones[|clones| - 1], m, f, b)
  }

  /** The records of one clone's promotion loop: one from each promotion that
      returned a priority, to the goal, with that priority and the clone id;
      none from the promotion that returned `None` or whose read raised, nor
      from the promotions after it. */
  function ClimbRecords(c: Clone, prs: seq<Id>, names: seq<string>, f: PromotionFn, b: Value): seq<Event>
    requires |prs| == |names|
    decreases |prs|
  {
    if prs == [] then []
    else
      var call := f(prs[0], c.priority, b);
      if !ReadsOk(b, call.0) || call.1.None? then []
      else [Event(prs[0], c.goalId, PromotionValue(call.1.value, c.cloneId))] + ClimbRecords(Promote(c, names[0], call.1.value), prs[1..], names[1..], f, b)
  }

  /** There is one record per promotion that fired, the `k`-th from the
      `k`-th promotion to the clone's goal, each with the clone's id; the
      last carries the priority the climb ends with. */
  lemma {:induction false} ClimbRecordsFired(c: Clone, prs: seq<Id>, names: seq<string>, f: PromotionFn, b: Value)
    requires |prs| == |names|
    ensures var rs := ClimbRecords(c, prs, names, f, b);
            && |rs| == Fired(c, prs, names, f, b)
            && (forall k :: 0 <= k < |rs| ==> rs[k].fromId == prs[k] && rs[k].toId == c.goalId && rs[k].value.Dict?
                                               && "cloneId" in rs[k].value.entries && rs[k].value.entries["cloneId"] == Str(c.cloneId))
            && (|rs| > 0 && Climb(c, prs, names, f, b).Ok? ==>
                  rs[|rs| - 1].value == PromotionValue(Climb(c, prs, names, f, b).value.priority, c.cloneId))
    decreases |prs|
  {
    if prs != [] {
      var call := f(prs[0], c.priority, b);
      if ReadsOk(b, call.0) && call.1.Some? {
        var c1 := Promote(c, names[0], call.1.value);
        ClimbRecordsFired(c1, prs[1..], names[1..], f, b);
        var rest := ClimbRecords(c1, prs[1..], names[1..], f, b);
        var rs := ClimbRecords(c, prs, names, f, b);
        assert rs == [Event(prs[0], c.goalId, PromotionValue(call.1.value, c.cloneId))] + rest;
        forall k | 1 <= k < |rs| ensures rs[k].fromId == prs[k] {
          assert rs[k] == rest[k - 1] && prs[1..][k - 1] == prs[k];
        }
        if rest == [] && Climb(c, prs, names, f, b).Ok? {
          assert Climb(c1, prs[1..], names[1..], f, b) == Ok(c1);
        }
      }
    }
  }

  /** The promotion loop of `c0` over `prs`, after `i` promotions: it goes on
      from clone `c`, and of the records `all` it makes, `done` are made. */
  ghost predicate ClimbsOn(c0: Clone, prs: seq<Id>, names: seq<string>, f: PromotionFn, b: Value,
                           all: seq<Event>, c: Clone, i: int, done: seq<Event>)
  {
    0 <= i <= |prs| == |names| &&
    Climb(c0, prs, names, f, b) == Climb(c, prs[i..], names[i..], f, b) &&
    all == done + ClimbRecords(c, prs[i..], names[i..], f, b)
  }

  /** A loop through all of `prs` has its result and all its records. */
  lemma ClimbsOnEnd(c0: Clone, prs: seq<Id>, names: seq<string>, f: PromotionFn, b: Value, all: seq<Event>, c: Clone, done: seq<Event>)
    requires ClimbsOn(c0, prs, names, f, b, all, c, |prs|, done)
    ensures Climb(c0, prs, names, f, b) == Ok(c) && all == done
  {
    assert prs[|prs|..] == [] && names[|prs|..] == [] && done + [] == done;
  }

  /** The promotion phase keeps the queue in descending priority, keeps every
      clone already queued, and adds at most one clone per goal. */
  lemma {:induction false} EnqueueSorted(q: seq<Clone>, clones: seq<Clone>, m: map<Id, Entity>, f: PromotionFn, b: Value)
    requires SortedDesc(q, Priority)
    ensures var r := Enqueue(q, clones, m, f, b);
            SortedDesc(r, Priority) && multiset(q) <= multiset(r) && |q| <= |r| <= |q| + |clones|
    decreases |clones|
  {
    if clones != [] {
      var init := clones[..|clones| - 1];
      EnqueueSorted(q, init, m, f, b);
      var q1 := Enqueue(q, init, m, f, b);
      var r := ClimbGoal(m, clones[|clones| - 1], f, b);
      if r.Ok? && IsInFinalState(r.value, |PromotionsOf(m, r.value.goalId)|) {
        InsertSorted(q1, r.value, Priority);
      }
    }
  }

  /** The records of the promotion loop of clone `c` of its goal in `m`. */
  function GoalRecords(m: map<Id, Entity>, c: Clone, f: PromotionFn, b: Value): seq<Event>
  {
    ClimbRecords(c, PromotionsOf(m, c.goalId), Names(m, PromotionsOf(m, c.goalId)), f, b)
  }

  /** The records of the promotion phase over `clones`, in their order. */
  function EnqueueRecords(clones: seq<Clone>, m: map<Id, Entity>, f: PromotionFn, b: Value): seq<Event>
    decreases |clones|
  {
    if clones == [] then []
    else EnqueueRecords(clones[..|clones| - 1], m, f, b) + GoalRecords(m, clones[|clones| - 1], f, b)
  }

  /** The records in `es` that come from a goal promotion of `m`. */
  function PromotionRecords(es: seq<Event>, m: map<Id, Entity>): (rs: seq<Event>)
    ensures |rs| <= |es|
    decreases |es|
  {
    if es == [] then []
    else PromotionRecords(es[..|es| - 1], m) + (if IsKind(m, es[|es| - 1].fromId, PromotionKind) then [es[|es| - 1]] else [])
  }

  /** Every record of `es` comes from an entity of `m`, and those that come
      from its goal promotions are `rs`, in order. */
  ghost predicate RecordsExactly(es: seq<Event>, m: map<Id, Entity>, rs: seq<Event>)
  {
    (forall k :: 0 <= k < |es| ==> es[k].fromId in m) && PromotionRecords(es, m) == rs
  }

  lemma {:induction false} PromotionRecordsAppend(a: seq<Event>, b: seq<Event>, m: map<Id, Entity>)
    ensures PromotionRecords(a + b, m) == PromotionRecords(a, m) + PromotionRecords(b, m)
    decreases |b|
  {
    if b == [] {
      assert a + b == a;
    } else {
      var n := |b| - 1;
      assert (a + b)[..|a + b| - 1] == a + b[..n];
      assert (a + b)[|a + b| - 1] == b[n];
      PromotionRecordsAppend(a, b[..n], m);
    }
  }

  /** Registries that only add entities and links keep the kind of every
      source already registered, so the promotion records stay the same. */
  lemma {:induction false} PromotionRecordsKept(es: seq<Event>, m: map<Id, Entity>, m2: map<Id, Entity>)
    requires Extends(m, m2) && forall k :: 0 <= k < |es| ==> es[k].fromId in m
    ensures PromotionRecords(es, m2) == PromotionRecords(es, m)
    decreases |es|
  {
    if es != [] {
      PromotionRecordsKept(es[..|es| - 1], m, m2);
    }
  }

  /** A single record from an entity of `m`. */
  lemma RecordOne(e: Event, m: map<Id, Entity>)
    requires e.fromId in m
    ensures RecordsExactly([e], m, if IsKind(m, e.fromId, PromotionKind) then [e] else [])
  {
    assert [e][..0] == [];
  }

  /** What a tracked read records, if anything, comes from an attribute and
      so is no promotion record. */
  lemma AttributeRecords(es: seq<Event>, m: map<Id, Entity>, a: Id, brf: Id, r: Result<Value>)
    requires a in m && m[a].Attribute?
    requires es == if r.Ok? && r.value != Null then [Event(a, brf, r.value)] else []
    ensures IsKind(m, a, AttributeKind) && RecordsExactly(es, m, [])
  {
    if es != [] {
      RecordOne(es[0], m);
    }
  }

  /** What a tracked belief write records, if anything, comes from a belief
      review function and so is no promotion record. */
  lemma BrfRecords(es: seq<Event>, m: map<Id, Entity>, brf: Id)
    requires brf in m && m[brf].BeliefReviewFunction?
    requires |es| <= 1 && (es != [] ==> es[0].fromId == brf)
    ensures RecordsExactly(es, m, [])
  {
    if es != [] {
      assert es == [es[0]];
      RecordOne(es[0], m);
    }
  }

  /** `ClimbRecords` from position `i`: the promotion there is called first. */
  lemma ClimbRecordsAt(c: Clone, prs: seq<Id>, names: seq<string>, f: PromotionFn, b: Value, i: int)
    requires |prs| == |names| && 0 <= i < |prs|
    ensures var call := f(prs[i], c.priority, b);
            ClimbRecords(c, prs[i..], names[i..], f, b) ==
              if !ReadsOk(b, call.0) || call.1.None? then []
              else [Event(prs[i], c.goalId, PromotionValue(call.1.value, c.cloneId))] + ClimbRecords(Promote(c, names[i], call.1.value), prs[i + 1..], names[i + 1..], f, b)
  {
    assert prs[i..][1..] == prs[i + 1..] && names[i..][1..] == names[i + 1..];
  }

  /** The records of two stretches of the log, the first checked against `m1`
      and the second against a registry `m2` that only added links. */
  lemma RecordsGrow(l0: seq<State>, l1: seq<State>, l2: seq<State>, lo: int, lo1: int, defaultId: Id,
                    m1: map<Id, Entity>, m2: map<Id, Entity>, rs1: seq<Event>, rs2: seq<Event>)
    requires GrowsFrom(l0, l1, lo, defaultId) && GrowsFrom(l1, l2, lo1, defaultId) && lo <= lo1 && LinksOnly(m1, m2)
    requires RecordsExactly(EventsOf(l1[|l0|..]), m1, rs1) && RecordsExactly(EventsOf(l2[|l1|..]), m2, rs2)
    ensures GrowsFrom(l0, l2, lo, defaultId) && RecordsExactly(EventsOf(l2[|l0|..]), m2, rs1 + rs2)
  {
    LogGrows(l0, l1, l2, lo, lo1, defaultId);
    RecordsJoin(EventsOf(l1[|l0|..]), EventsOf(l2[|l1|..]), m1, m2, rs1, rs2);
  }

  /** Records checked against `m1`, then more against a registry `m2` that
      only added links: together they are checked against `m2`. */
  lemma RecordsJoin(e1: seq<Event>, e2: seq<Event>, m1: map<Id, Entity>, m2: map<Id, Entity>, rs1: seq<Event>, rs2: seq<Event>)
    requires LinksOnly(m1, m2) && RecordsExactly(e1, m1, rs1) && RecordsExactly(e2, m2, rs2)
    ensures RecordsExactly(e1 + e2, m2, rs1 + rs2)
  {
    LinksOnlyExtends(m1, m2);
    PromotionRecordsKept(e1, m1, m2);
    PromotionRecordsAppend(e1, e2, m2);
    forall k | 0 <= k < |e1 + e2| ensures (e1 + e2)[k].fromId in m2 {
      if k < |e1| {
        assert (e1 + e2)[k] == e1[k];
      } else {
        assert (e1 + e2)[k] == e2[k - |e1|];
      }
    }
  }

  /** An action's outcome: it returned, or it raised with this message and
      traceback. */
  datatype Outcome = Success | Failure(error: string, stack: string)

  /** An action function, as what one call does: given the action's id and
      the beliefs, its outcome. */
  type ActionFn = (Id, Value) -> Outcome

  function ConflictValue(chosen: Id, removed: Id): Value
  {
    Dict(map["chosen" := Str(chosen), "removed" := Str(removed)])
  }

  function PlanValue(cloneId: Id, priority: int): Value
  {
    Dict(map["cloneId" := Str(cloneId), "priority" := Int(priority)])
  }

  function ActionValue(cloneId: Id, o: Outcome): Value
  {
    match o
    case Success => Dict(map["cloneId" := Str(cloneId)])
    case Failure(e, st) => Dict(map["cloneId" := Str(cloneId), "error" := Str(e), "stack" := Str(st)])
  }

  function PromotionValue(priority: int, cloneId: Id): Value
  {
    Dict(map["incPriority" := Int(priority), "cloneId" := Str(cloneId)])
  }

  /** One removal record per dropped clone of conflict `c`. */
  function RemovalEvents(c: Id, chosen: Id, ids: seq<Id>): (es: seq<Event>)
    ensures |es| == |ids|
    ensures forall k :: 0 <= k < |ids| ==> es[k] == Event(c, "", ConflictValue(chosen, ids[k]))
  {
    if ids == [] then [] else [Event(c, "", ConflictValue(chosen, ids[0]))] + RemovalEvents(c, chosen, ids[1..])
  }

  /** The records of the conflict loop over the head goal's conflicts. */
  function Resolve(cs: seq<Id>, det: map<Id, Resolution>): seq<Event>
  {
    if cs == [] then []
    else (if cs[0] in det then RemovalEvents(cs[0], det[cs[0]].chosen, det[cs[0]].toRemove) else []) + Resolve(cs[1..], det)
  }

  /** The elements of a list, as a set. */
  function Elems(s: seq<Id>): set<Id>
  {
    if s == [] then {} else Elems(s[..|s| - 1]) + {s[|s| - 1]}
  }

  lemma {:induction false} ElemsIn(s: seq<Id>, x: Id)
    ensures x in Elems(s) <==> x in s
    decreases |s|
  {
    if s != [] {
      ElemsIn(s[..|s| - 1], x);
      assert s == s[..|s| - 1] + [s[|s| - 1]];
    }
  }

  /** The clone ids that loop adds to `removedByConflict`. */
  function Removed(cs: seq<Id>, det: map<Id, Resolution>): set<Id>
  {
    if cs == [] then {}
    else (if cs[0] in det then Elems(det[cs[0]].toRemove) else {}) + Removed(cs[1..], det)
  }

  function ConflictsOfGoal(m: map<Id, Entity>, g: Id): seq<Id>
  {
    if g in m && m[g].Goal? then m[g].conflicts else []
  }

  function PlansOfGoal(m: map<Id, Entity>, g: Id): seq<Id>
  {
    if g in m && m[g].Goal? then m[g].plans else []
  }

  function ActionsOfPlan(m: map<Id, Entity>, p: Id): seq<Id>
  {
    if p in m && m[p].Plan? then m[p].actions else []
  }

  /** One record per action of the executed plan. */
  function ActionEvents(plan: Id, actions: seq<Id>, cloneId: Id, f: ActionFn, b: Value): (es: seq<Event>)
    ensures |es| == |actions|
    ensures forall k :: 0 <= k < |actions| ==> es[k] == Event(plan, actions[k], ActionValue(cloneId, f(actions[k], b)))
  {
    if actions == [] then []
    else [Event(plan, actions[0], ActionValue(cloneId, f(actions[0], b)))] + ActionEvents(plan, actions[1..], cloneId, f, b)
  }

  /** The result of a pass over the queue: the records made, the queue left,
      and whether the pass ended normally (false: `goal.plans[0]` raised
      IndexError). */
  datatype Drained = Drained(events: seq<Event>, rest: seq<Clone>, ok: bool)

  /** `processIntentionsAsync` from queue `q` with `removedByConflict` equal
      to `removed`: conflicts are detected on the whole queue before the head
      is popped; a head not yet removed drops the clones its conflicts rule
      out; a removed head is skipped (and forgotten); otherwise the head's
      last plan is recorded and its actions run. */
  function Drain(q: seq<Clone>, removed: set<Id>, m: map<Id, Entity>, conflicts: seq<Id>, f: ActionFn, b: Value): Drained
    decreases |q|
  {
    if q == [] then Drained([], [], true)
    else
      var det := Detect(m, conflicts, q);
      var g := q[0];
      var gcs := ConflictsOfGoal(m, g.goalId);
      var evs := if g.cloneId in removed then [] else Resolve(gcs, det);
      var removed1 := if g.cloneId in removed then removed else removed + Removed(gcs, det);
      if g.cloneId in removed1 then
        var d := Drain(q[1..], removed1 - {g.cloneId}, m, conflicts, f, b);
        Drained(evs + d.events, d.rest, d.ok)
      else
        var plans := PlansOfGoal(m, g.goalId);
        if plans == [] then Drained(evs, q[1..], false)
        else
          var plan := plans[|plans| - 1];
          var run := [Event(g.goalId, plan, PlanValue(g.cloneId, g.priority))] + ActionEvents(plan, ActionsOfPlan(m, plan), g.cloneId, f, b);
          var d := Drain(q[1..], removed1, m, conflicts, f, b);
          Drained(evs + run + d.events, d.rest, d.ok)
  }

  /** Where a pass goes on after the head of `q`: with the head dropped, or
      after running it, the rest and the end are those of the pass over the
      tail; a head without plans ends the pass there. */
  lemma DrainTail(q: seq<Clone>, removed: set<Id>, removed1: set<Id>, m: map<Id, Entity>, conflicts: seq<Id>, f: ActionFn, b: Value)
    requires q != []
    requires removed1 == if q[0].cloneId in removed then removed else removed + Removed(ConflictsOfGoal(m, q[0].goalId), Detect(m, conflicts, q))
    ensures var d := Drain(q, removed, m, conflicts, f, b);
            if q[0].cloneId in removed1 then
              var d1 := Drain(q[1..], removed1 - {q[0].cloneId}, m, conflicts, f, b);
              d.rest == d1.rest && d.ok == d1.ok
            else if PlansOfGoal(m, q[0].goalId) == [] then d.rest == q[1..] && !d.ok
            else
              var d1 := Drain(q[1..], removed1, m, conflicts, f, b);
              d.rest == d1.rest && d.ok == d1.ok
  {
  }

  /** A pass leaves a suffix of the queue, and empties it when it ends
      normally. */
  lemma {:induction false} DrainRest(q: seq<Clone>, removed: set<Id>, m: map<Id, Entity>, conflicts: seq<Id>, f: ActionFn, b: Value)
    ensures var d := Drain(q, removed, m, conflicts, f, b);
            |d.rest| <= |q| && d.rest == q[|q| - |d.rest|..] && (d.ok ==> d.rest == [])
    decreases |q|
  {
    if q != [] {
      var g := q[0];
      var removed1 := if g.cloneId in removed then removed else removed + Removed(ConflictsOfGoal(m, g.goalId), Detect(m, conflicts, q));
      DrainTail(q, removed, removed1, m, conflicts, f, b);
      if g.cloneId in removed1 || PlansOfGoal(m, g.goalId) != [] {
        var r1 := if g.cloneId in removed1 then removed1 - {g.cloneId} else removed1;
        DrainRest(q[1..], r1, m, conflicts, f, b);
        var d1 := Drain(q[1..], r1, m, conflicts, f, b);
        assert q[1..][|q[1..]| - |d1.rest|..] == q[|q| - |d1.rest|..];
      }
    }
  }

  /** A pass ends normally when every queued goal has a plan, and only fails
      on a queued goal without plans. */
  lemma {:induction false} DrainOk(q: seq<Clone>, removed: set<Id>, m: map<Id, Entity>, conflicts: seq<Id>, f: ActionFn, b: Value)
    ensures (forall k :: 0 <= k < |q| ==> PlansOfGoal(m, q[k].goalId) != []) ==> Drain(q, removed, m, conflicts, f, b).ok
    ensures !Drain(q, removed, m, conflicts, f, b).ok ==> exists k :: 0 <= k < |q| && PlansOfGoal(m, q[k].goalId) == []
    decreases |q|
  {
    if q != [] {
      var det := Detect(m, conflicts, q);
      var g := q[0];
      var gcs := ConflictsOfGoal(m, g.goalId);
      var removed1 := if g.cloneId in removed then removed else removed + Removed(gcs, det);
      DrainOk(q[1..], removed1 - {g.cloneId}, m, conflicts, f, b);
      DrainOk(q[1..], removed1, m, conflicts, f, b);
      if !Drain(q, removed, m, conflicts, f, b).ok && PlansOfGoal(m, g.goalId) != [] {
        var k :| 0 <= k < |q[1..]| && PlansOfGoal(m, q[1..][k].goalId) == [];
        assert q[k + 1] == q[1..][k];
      }
    }
  }

  /** `drain` is `Drain` for one registry, conflict list, action outcome
      and beliefs. */
  ghost predicate Drains(drain: (seq<Clone>, set<Id>) -> Drained, m: map<Id, Entity>, conflicts: seq<Id>, f: ActionFn, b: Value)
  {
    forall q, r {:trigger Drain(q, r, m, conflicts, f, b)} :: drain(q, r) == Drain(q, r, m, conflicts, f, b)
  }

  function DrainMap(m: map<Id, Entity>, conflicts: seq<Id>, f: ActionFn, b: Value): (seq<Clone>, set<Id>) -> Drained
  {
    (q, r) => Drain(q, r, m, conflicts, f, b)
  }

  lemma DrainMapDrains(m: map<Id, Entity>, conflicts: seq<Id>, f: ActionFn, b: Value)
    ensures Drains(DrainMap(m, conflicts, f, b), m, conflicts, f, b)
  {
  }

  /** One turn of the pass, through `drain`: the head of `q` with the
      conflicts `det` detected on `q`, the records `evs` of its conflict
      handling and the removal set `removed1` after it; then the head is
      skipped, fails for want of plans, or runs its last plan. */
  lemma DrainHead(drain: (seq<Clone>, set<Id>) -> Drained, m: map<Id, Entity>, conflicts: seq<Id>, f: ActionFn, b: Value,
                  q: seq<Clone>, removed: set<Id>, det: map<Id, Resolution>, evs: seq<Event>, removed1: set<Id>)
    requires Drains(drain, m, conflicts, f, b) && q != []
    requires det == Detect(m, conflicts, q)
    requires evs == if q[0].cloneId in removed then [] else Resolve(ConflictsOfGoal(m, q[0].goalId), det)
    requires removed1 == if q[0].cloneId in removed then removed else removed + Removed(ConflictsOfGoal(m, q[0].goalId), det)
    ensures q[0].cloneId in removed1 ==>
              var d := drain(q[1..], removed1 - {q[0].cloneId});
              drain(q, removed) == Drained(evs + d.events, d.rest, d.ok)
    ensures q[0].cloneId !in removed1 && PlansOfGoal(m, q[0].goalId) == [] ==>
              drain(q, removed) == Drained(evs, q[1..], false)
    ensures q[0].cloneId !in removed1 && PlansOfGoal(m, q[0].goalId) != [] ==>
              var plans := PlansOfGoal(m, q[0].goalId);
              var plan := plans[|plans| - 1];
              var run := [Event(q[0].goalId, plan, PlanValue(q[0].cloneId, q[0].priority))] + ActionEvents(plan, ActionsOfPlan(m, plan), q[0].cloneId, f, b);
              var d := drain(q[1..], removed1);
              drain(q, removed) == Drained((evs + run) + d.events, d.rest, d.ok)
  {
    assert drain(q, removed) == Drain(q, removed, m, conflicts, f, b);
    assert drain(q[1..], removed1 - {q[0].cloneId}) == Drain(q[1..], removed1 - {q[0].cloneId}, m, conflicts, f, b);
    assert drain(q[1..], removed1) == Drain(q[1..], removed1, m, conflicts, f, b);
  }

  /** The queue invariant: descending priority order, unique clone ids, all
      of them issued, each the clone of a registered goal. */
  ghost predicate QueueOk(q: seq<Clone>, m: map<Id, Entity>, issued: set<Id>)
  {
    SortedDesc(q, Priority) && UniqueClones(q) &&
    forall i :: 0 <= i < |q| ==> q[i].cloneId in issued && IsKind(m, q[i].goalId, GoalKind)
  }

  lemma QueueKept(q: seq<Clone>, m: map<Id, Entity>, m2: map<Id, Entity>, iss: set<Id>, iss2: set<Id>)
    requires QueueOk(q, m, iss) && Extends(m, m2) && iss <= iss2
    ensures QueueOk(q, m2, iss2)
  {
  }

  lemma QueueTail(q: seq<Clone>, m: map<Id, Entity>, iss: set<Id>)
    requires QueueOk(q, m, iss) && q != []
    ensures QueueOk(q[1..], m, iss)
  {
  }

  /** Inserting a clone of a registered goal with an issued id that no queued
      clone has keeps the queue invariant. */
  lemma QueueInsert(q: seq<Clone>, c: Clone, m: map<Id, Entity>, iss: set<Id>)
    requires QueueOk(q, m, iss)
    requires c.cloneId in iss && IsKind(m, c.goalId, GoalKind)
    requires forall k :: 0 <= k < |q| ==> q[k].cloneId != c.cloneId
    ensures QueueOk(Insert(q, c, Priority), m, iss)
  {
    InsertSorted(q, c, Priority);
    var i := InsertionPoint(q, c, Priority);
    var r := Insert(q, c, Priority);
    forall a, a' | 0 <= a < a' < |r| ensures r[a].cloneId != r[a'].cloneId {
      InsertIndexAt(q, c, Priority, a);
      InsertIndexAt(q, c, Priority, a');
    }
    forall a | 0 <= a < |r| ensures r[a].cloneId in iss && IsKind(m, r[a].goalId, GoalKind) {
      InsertIndexAt(q, c, Priority, a);
    }
  }

  /** The processor state every operation keeps, on values. */
  ghost predicate Core(agent: Id, q: seq<Clone>, m: map<Id, Entity>, iss: set<Id>, ba: map<string, Id>, ca: map<string, Id>)
  {
    IsKind(m, agent, AgentKind) && AttrsRegistered(ba, m) && AttrsRegistered(ca, m) && QueueOk(q, m, iss)
  }

  lemma CoreKept(agent: Id, q: seq<Clone>, m: map<Id, Entity>, m2: map<Id, Entity>, iss: set<Id>, iss2: set<Id>,
                 ba: map<string, Id>, ba2: map<string, Id>, ca: map<string, Id>, ca2: map<string, Id>)
    requires Core(agent, q, m, iss, ba, ca) && LinksOnly(m, m2) && iss <= iss2
    requires ba2 == ba || AttrsRegistered(ba2, m2)
    requires ca2 == ca || AttrsRegistered(ca2, m2)
    ensures Core(agent, q, m2, iss2, ba2, ca2)
  {
    LinksOnlyExtends(m, m2);
    AttrsRegisteredKept(ba, m, m2);
    AttrsRegisteredKept(ca, m, m2);
    QueueKept(q, m, m2, iss, iss2);
  }

  /** Attribute links are all the accessors change: the lists that drive the
      processor read the same afterwards. */
  lemma LinksOnlyKeepsLists(m: map<Id, Entity>, m2: map<Id, Entity>, id: Id)
    requires LinksOnly(m, m2) && id in m
    ensures PromotionsOf(m2, id) == PromotionsOf(m, id) && NameOf(m2, id) == NameOf(m, id)
    ensures ConflictsOfGoal(m2, id) == ConflictsOfGoal(m, id) && PlansOfGoal(m2, id) == PlansOfGoal(m, id)
    ensures ActionsOfPlan(m2, id) == ActionsOfPlan(m, id)
    ensures m[id].Agent? ==> m2[id] == m[id]
    ensures m2[id].BeliefReviewFunction? == m[id].BeliefReviewFunction?
  {
    assert Unlinked(m2[id]) == Unlinked(m[id]);
  }

  lemma NamesKept(m: map<Id, Entity>, m2: map<Id, Entity>, prs: seq<Id>)
    requires LinksOnly(m, m2) && forall p :: p in prs ==> p in m
    ensures Names(m2, prs) == Names(m, prs)
  {
    forall k | 0 <= k < |prs| ensures NameOf(m2, prs[k]) == NameOf(m, prs[k]) {
      LinksOnlyKeepsLists(m, m2, prs[k]);
    }
  }

  lemma ClimbGoalKept(m: map<Id, Entity>, m2: map<Id, Entity>, c: Clone, f: PromotionFn, b: Value)
    requires LinksOnly(m, m2) && WellFormed(m) && IsKind(m, c.goalId, GoalKind)
    ensures ClimbGoal(m2, c, f, b) == ClimbGoal(m, c, f, b)
    ensures GoalRecords(m2, c, f, b) == GoalRecords(m, c, f, b)
    ensures PromotionsOf(m2, c.goalId) == PromotionsOf(m, c.goalId)
  {
    LinksOnlyKeepsLists(m, m2, c.goalId);
    assert EntityTyped(m, m[c.goalId]);
    NamesKept(m, m2, PromotionsOf(m, c.goalId));
  }

  /** The facts one step of the promotion loop needs about the `i`-th target
      promotion of a registered goal. */
  lemma PromotionStep(m0: map<Id, Entity>, m: map<Id, Entity>, prs: seq<Id>, names: seq<string>, i: int)
    requires LinksOnly(m0, m) && AllOf(m0, prs, PromotionKind) && names == Names(m0, prs) && 0 <= i < |prs|
    ensures IsKind(m, prs[i], PromotionKind) && NameOf(m, prs[i]) == names[i]
    ensures prs[i..][1..] == prs[i + 1..] && names[i..][1..] == names[i + 1..]
  {
    assert prs[i] in prs;
    LinksOnlyExtends(m0, m);
    LinksOnlyKeepsLists(m0, m, prs[i]);
  }

  /** Every clone's promotion loop ran without a raising read. */
  ghost predicate ClimbsOk(m: map<Id, Entity>, cs: seq<Clone>, f: PromotionFn, b: Value)
  {
    forall k :: 0 <= k < |cs| ==> ClimbGoal(m, cs[k], f, b).Ok?
  }

  lemma ClimbsOkAdd(m: map<Id, Entity>, cs: seq<Clone>, c: Clone, f: PromotionFn, b: Value)
    requires ClimbsOk(m, cs, f, b) && ClimbGoal(m, c, f, b).Ok?
    ensures ClimbsOk(m, cs + [c], f, b)
  {
  }

  /** The clones of one deliberation: the `k`-th is a fresh clone of the
      `k`-th goal, in the initial state, and their ids are new and distinct. */
  ghost predicate FreshClones(cs: seq<Clone>, gs: seq<Id>, iss0: set<Id>)
  {
    |cs| <= |gs| && UniqueClones(cs) &&
    forall k :: 0 <= k < |cs| ==>
      cs[k].goalId == gs[k] && cs[k].priority == 0 && cs[k].status == [] && cs[k].cloneId !in iss0
  }

  /** A new clone whose id was not issued when the earlier clones had been
      made keeps the clones fresh and distinct. */
  lemma FreshClonesAdd(cs: seq<Clone>, gs: seq<Id>, c: Clone, iss0: set<Id>, iss: set<Id>)
    requires FreshClones(cs, gs, iss0) && |cs| < |gs| && iss0 <= iss
    requires forall k :: 0 <= k < |cs| ==> cs[k].cloneId in iss
    requires c.goalId == gs[|cs|] && c.priority == 0 && c.status == [] && c.cloneId !in iss
    ensures FreshClones(cs + [c], gs, iss0)
  {
  }

  lemma FreshClonesWiden(cs: seq<Clone>, gs: seq<Id>, iss0: set<Id>, iss1: set<Id>)
    requires FreshClones(cs, gs, iss1) && iss0 <= iss1
    ensures FreshClones(cs, gs, iss0)
  {
  }

  /** The clones made for an agent's goals are clones of registered goals. */
  lemma CloneGoalsTyped(m: map<Id, Entity>, agent: Id, cs: seq<Clone>, iss: set<Id>)
    requires agent in m && m[agent].Agent? && EntityTyped(m, m[agent])
    requires FreshClones(cs, m[agent].goals, iss)
    ensures forall k :: 0 <= k < |cs| ==> IsKind(m, cs[k].goalId, GoalKind)
  {
    forall k | 0 <= k < |cs| ensures IsKind(m, cs[k].goalId, GoalKind) {
      assert cs[k].goalId in m[agent].goals;
    }
  }

  /** A clone id not yet issued is in no queued clone. */
  lemma QueueFresh(q: seq<Clone>, iss: set<Id>, id: Id)
    requires forall k :: 0 <= k < |q| ==> q[k].cloneId in iss
    requires id !in iss
    ensures forall k :: 0 <= k < |q| ==> q[k].cloneId != id
  {
  }

  /** A climbed clone is still the clone of its goal, with its clone id. */
  lemma ClimbKeepsClone(m: map<Id, Entity>, c: Clone, f: PromotionFn, b: Value)
    requires ClimbGoal(m, c, f, b).Ok?
    ensures ClimbGoal(m, c, f, b).value.goalId == c.goalId && ClimbGoal(m, c, f, b).value.cloneId == c.cloneId
  {
    var prs := PromotionsOf(m, c.goalId);
    ClimbStatus(c, prs, Names(m, prs), f, b);
  }

  /** One more clone: its climb decides whether it is inserted, and its
      records follow those of the clones before it. */
  lemma EnqueueLast(q: seq<Clone>, cs: seq<Clone>, c: Clone, m: map<Id, Entity>, f: PromotionFn, b: Value)
    ensures Enqueue(q, cs + [c], m, f, b) == EnqueueOne(Enqueue(q, cs, m, f, b), c, m, f, b)
    ensures EnqueueRecords(cs + [c], m, f, b) == EnqueueRecords(cs, m, f, b) + GoalRecords(m, c, f, b)
  {
    assert (cs + [c])[..|cs|] == cs;
  }

  lemma EnqueueOneKept(q: seq<Clone>, c: Clone, m: map<Id, Entity>, m2: map<Id, Entity>, f: PromotionFn, b: Value)
    requires LinksOnly(m, m2) && WellFormed(m) && IsKind(m, c.goalId, GoalKind)
    ensures EnqueueOne(q, c, m2, f, b) == EnqueueOne(q, c, m, f, b)
    ensures ClimbGoal(m2, c, f, b) == ClimbGoal(m, c, f, b)
  {
    ClimbGoalKept(m, m2, c, f, b);
    var r := ClimbGoal(m, c, f, b);
    if r.Ok? {
      ClimbKeepsClone(m, c, f, b);
    }
  }

  /** The promotion phase reads the same goals after the accessors have
      added links. */
  lemma {:induction false} EnqueueKept(q: seq<Clone>, cs: seq<Clone>, m: map<Id, Entity>, m2: map<Id, Entity>, f: PromotionFn, b: Value)
    requires LinksOnly(m, m2) && WellFormed(m) && forall k :: 0 <= k < |cs| ==> IsKind(m, cs[k].goalId, GoalKind)
    ensures Enqueue(q, cs, m2, f, b) == Enqueue(q, cs, m, f, b)
    ensures EnqueueRecords(cs, m2, f, b) == EnqueueRecords(cs, m, f, b)
    ensures ClimbsOk(m2, cs, f, b) <==> ClimbsOk(m, cs, f, b)
    decreases |cs|
  {
    if cs != [] {
      var n := |cs| - 1;
      EnqueueKept(q, cs[..n], m, m2, f, b);
      EnqueueOneKept(Enqueue(q, cs[..n], m, f, b), cs[n], m, m2, f, b);
      ClimbGoalKept(m, m2, cs[n], f, b);
    }
    forall k | 0 <= k < |cs| ensures ClimbGoal(m2, cs[k], f, b) == ClimbGoal(m, cs[k], f, b) {
      ClimbGoalKept(m, m2, cs[k], f, b);
    }
  }

  /** The value-level facts one iteration of the promotion phase keeps. */
  lemma PromoteAllStep(q0: seq<Clone>, q: seq<Clone>, q2: seq<Clone>, cs: seq<Clone>, c: Clone, ok: bool, gs: seq<Id>,
                       m0: map<Id, Entity>, m: map<Id, Entity>, f: PromotionFn, b: Value, iss0: set<Id>, iss: set<Id>, iss2: set<Id>)
    requires LinksOnly(m0, m) && WellFormed(m0) && |cs| < |gs| && IsKind(m0, gs[|cs|], GoalKind)
    requires ClimbsOk(m0, cs, f, b) && q == Enqueue(q0, cs, m0, f, b)
    requires FreshClones(cs, gs, iss0) && iss0 <= iss && iss <= iss2
    requires forall k :: 0 <= k < |cs| ==> cs[k].cloneId in iss
    requires c.goalId == gs[|cs|] && c.priority == 0 && c.status == [] && c.cloneId !in iss && c.cloneId in iss2
    requires ok <==> ClimbGoal(m, c, f, b).Ok?
    requires q2 == EnqueueOne(q, c, m, f, b)
    ensures FreshClones(cs + [c], gs, iss0) && forall k :: 0 <= k < |cs| + 1 ==> (cs + [c])[k].cloneId in iss2
    ensures q2 == Enqueue(q0, cs + [c], m0, f, b)
    ensures GoalRecords(m, c, f, b) == GoalRecords(m0, c, f, b)
    ensures EnqueueRecords(cs + [c], m0, f, b) == EnqueueRecords(cs, m0, f, b) + GoalRecords(m0, c, f, b)
    ensures ok ==> ClimbsOk(m0, cs + [c], f, b)
    ensures !ok ==> !ClimbsOk(m0, cs + [c], f, b)
  {
    EnqueueOneKept(q, c, m0, m, f, b);
    ClimbGoalKept(m0, m, c, f, b);
    FreshClonesAdd(cs, gs, c, iss0, iss);
    EnqueueLast(q0, cs, c, m0, f, b);
    if ok {
      ClimbsOkAdd(m0, cs, c, f, b);
    } else {
      assert !ClimbGoal(m0, (cs + [c])[|cs|], f, b).Ok?;
    }
  }

  function PlanPriority(m: map<Id, Entity>, p: Id): int
  {
    if p in m && m[p].Plan? then m[p].priority else 0
  }

  /** No state was added since `l`. */
  lemma LogNothing(l: seq<State>)
    ensures EventsOf(l[|l|..]) == [] && l[..|l|] == l
  {
  }

  /** The records added in two stretches are those of the first followed by
      those of the second. */
  lemma LogGrows(l0: seq<State>, l1: seq<State>, l2: seq<State>, lo: int, lo1: int, defaultId: Id)
    requires GrowsFrom(l0, l1, lo, defaultId) && GrowsFrom(l1, l2, lo1, defaultId) && lo <= lo1
    ensures GrowsFrom(l0, l2, lo, defaultId)
    ensures EventsOf(l2[|l0|..]) == EventsOf(l1[|l0|..]) + EventsOf(l2[|l1|..])
  {
    GrowsFromTrans(l0, l1, l2, lo, lo1, defaultId);
    assert l2[|l0|..] == l1[|l0|..] + l2[|l1|..];
    EventsAppend(l1[|l0|..], l2[|l1|..]);
  }

  lemma UnionShift(a: set<Id>, b: set<Id>, c: set<Id>)
    ensures a + b + c == a + (b + c)
  {
  }

  /** How one iteration of the pass extends what is already recorded. */
  lemma PassShift(d0: Drained, e: seq<Event>, d: Drained, step: seq<Event>, d2: Drained, ok: bool, rest: seq<Clone>)
    requires d0 == Drained(e + d.events, d.rest, d.ok)
    requires ok ==> d == Drained(step + d2.events, d2.rest, d2.ok)
    requires !ok ==> d == Drained(step, rest, false)
    ensures ok ==> d0 == Drained((e + step) + d2.events, d2.rest, d2.ok)
    ensures !ok ==> d0 == Drained(e + step, rest, false)
  {
  }

  /** One more read of a promotion call: it extends the successful prefix,
      or its failure makes the whole call fail. */
  lemma ReadsOkStep(b: Value, paths: seq<string>, i: nat, ok: bool)
    requires i < |paths| && ReadsOk(b, paths[..i]) && (ok <==> Read(b, Split(paths[i])).Ok?)
    ensures ok ==> ReadsOk(b, paths[..i + 1])
    ensures !ok ==> !ReadsOk(b, paths)
  {
    assert paths[..i + 1] == paths[..i] + [paths[i]];
    assert paths[i] in paths;
  }

  /** The records of a turn, regrouped as one block. */
  lemma Regroup(d0: Drained, e1: seq<Event>, run: seq<Event>, e: seq<Event>, d: Drained)
    requires d0 == Drained((e1 + run) + d.events, d.rest, d.ok) && e == e1 + run
    ensures d0 == Drained(e + d.events, d.rest, d.ok)
  {
  }

  /** Moving one piece from the to-do part to the done part. */
  lemma Shift<T>(whole: seq<T>, done: seq<T>, piece: seq<T>, todo: seq<T>, todo2: seq<T>)
    requires whole == done + todo && todo == piece + todo2
    ensures whole == (done + piece) + todo2
  {
  }

  lemma RemovalStep(c: Id, chosen: Id, ids: seq<Id>, i: int)
    requires 0 <= i < |ids|
    ensures RemovalEvents(c, chosen, ids[i..]) == [Event(c, "", ConflictValue(chosen, ids[i]))] + RemovalEvents(c, chosen, ids[i + 1..])
    ensures Elems(ids[..i + 1]) == Elems(ids[..i]) + {ids[i]}
  {
    assert ids[i..][1..] == ids[i + 1..];
    assert ids[..i + 1] == ids[..i] + [ids[i]];
  }

  lemma ResolveStep(cs: seq<Id>, det: map<Id, Resolution>, i: int)
    requires 0 <= i < |cs|
    ensures Resolve(cs[i..], det) ==
      (if cs[i] in det then RemovalEvents(cs[i], det[cs[i]].chosen, det[cs[i]].toRemove) else []) + Resolve(cs[i + 1..], det)
    ensures Removed(cs[i..], det) == (if cs[i] in det then Elems(det[cs[i]].toRemove) else {}) + Removed(cs[i + 1..], det)
  {
    assert cs[i..][1..] == cs[i + 1..];
  }

  lemma ActionStep(plan: Id, actions: seq<Id>, cloneId: Id, f: ActionFn, b: Value, i: int)
    requires 0 <= i < |actions|
    ensures ActionEvents(plan, actions[i..], cloneId, f, b) ==
      [Event(plan, actions[i], ActionValue(cloneId, f(actions[i], b)))] + ActionEvents(plan, actions[i + 1..], cloneId, f, b)
  {
    assert actions[i..][1..] == actions[i + 1..];
  }

  class SequentialProcessor {
    const agent: Id
    const reg: Registry
    const rt: Runtime
    const hist: InMemoryExecutionHistory
    /** `agent.beliefs` and `agent.channel` */
    const beliefs: DataContainer
    const channel: DataContainer
    /** `self._enviroment`: the data of the last deliberation. */
    var environment: Value
    /** `self._intentions` */
    var intentions: seq<Clone>

    ghost predicate Valid()
      reads this, reg, rt, hist, beliefs, channel
    {
      reg.rt == rt && reg.Valid() && hist.Valid() && beliefs != channel &&
      Core(agent, intentions, reg.byId, rt.issued, beliefs.attrs, channel.attrs)
    }

    /** The history since it held `l0`, when the clock read `lo`: it grew by
        states stamped from `lo` on, and the records among them that come
        from goal promotions are `rs`. */
    ghost predicate LoggedSince(l0: seq<State>, lo: int, rs: seq<Event>)
      reads this, hist, rt, reg
    {
      GrowsFrom(l0, hist.log, lo, rt.stateDefaultId) && rt.now >= lo && RecordsExactly(EventsOf(hist.log[|l0|..]), reg.byId, rs)
    }

    /** `SequentialProcessor(agent, executionHistory)`: the queue starts
        empty and the environment is an empty container's data. */
    constructor (agent: Id, reg: Registry, hist: InMemoryExecutionHistory, beliefs: DataContainer, channel: DataContainer)
      requires reg.Valid() && hist.Valid() && beliefs != channel
      requires IsKind(reg.byId, agent, AgentKind) && beliefs.Valid(reg) && channel.Valid(reg)
      ensures Valid() && intentions == [] && environment == Dict(map[])
      ensures this.agent == agent && this.reg == reg && this.rt == reg.rt && this.hist == hist
      ensures this.beliefs == beliefs && this.channel == channel
    {
      this.agent := agent;
      this.reg := reg;
      this.rt := reg.rt;
      this.hist := hist;
      this.beliefs := beliefs;
      this.channel := channel;
      environment := Dict(map[]);
      intentions := [];
    }

    /** A read through the tracked getter of `c`, one of the environment, the
        beliefs and the channel. */
    method ReviewRead(env: DataContainer, c: DataContainer, brf: Id, p: string) returns (ok: bool)
      requires Valid() && env.Valid(reg) && env != beliefs && env != channel
      requires c == env || c == beliefs || c == channel
      requires brf in reg.byId && reg.byId[brf].BeliefReviewFunction?
      modifies reg, rt, hist, c`attrs
      ensures Valid() && env.Valid(reg) && LinksOnly(old(reg.byId), reg.byId)
      ensures ok <==> Read(c.data, Split(p)).Ok?
      ensures rt.issued >= old(rt.issued) && LoggedSince(old(hist.log), old(rt.now), [])
      ensures var k, v := c.name + "." + p, Read(c.data, Split(p));
              k in c.attrs && IsKind(reg.byId, c.attrs[k], AttributeKind) &&
              EventsOf(hist.log[|old(hist.log)|..]) == if v.Ok? && v.value != Null then [Event(c.attrs[k], brf, v.value)] else []
    {
      ghost var m := reg.byId;
      ghost var ba, ca, ea := beliefs.attrs, channel.attrs, env.attrs;
      var r := c.TrackedGet(reg, hist, brf, Null, p);
      if c != env {
        AttrsRegisteredKept(ea, m, reg.byId);
      }
      CoreKept(agent, intentions, m, reg.byId, old(rt.issued), rt.issued, ba, beliefs.attrs, ca, channel.attrs);
      ok := r.Ok?;
      AttributeRecords(EventsOf(hist.log[|old(hist.log)|..]), reg.byId, c.attrs[c.name + "." + p], brf, r);
    }

    /** A write through the tracked belief setter. */
    method ReviewWrite(env: DataContainer, brf: Id, p: string, v: Value) returns (ok: bool)
      requires Valid() && env.Valid(reg) && env != beliefs && env != channel
      requires brf in reg.byId && reg.byId[brf].BeliefReviewFunction?
      modifies reg, rt, hist, beliefs`data, beliefs`attrs
      ensures Valid() && env.Valid(reg) && LinksOnly(old(reg.byId), reg.byId)
      ensures ok <==> SetData(old(beliefs.data), p, v).Ok?
      ensures ok ==> beliefs.data == SetData(old(beliefs.data), p, v).value.1
      ensures !ok ==> beliefs.data == old(beliefs.data)
      ensures GrowsFrom(old(hist.log), hist.log, old(rt.now), rt.stateDefaultId) && rt.now >= old(rt.now)
      ensures rt.issued >= old(rt.issued)
      ensures var k, s := beliefs.name + "." + p, SetData(old(beliefs.data), p, v);
              && (s.Ok? && s.value.0 ==> k in beliefs.attrs && IsKind(reg.byId, beliefs.attrs[k], AttributeKind) &&
                                         EventsOf(hist.log[|old(hist.log)|..]) == [Event(brf, beliefs.attrs[k], v)])
              && (!(s.Ok? && s.value.0) ==> EventsOf(hist.log[|old(hist.log)|..]) == [])
      ensures RecordsExactly(EventsOf(hist.log[|old(hist.log)|..]), reg.byId, [])
    {
      ghost var m := reg.byId;
      ghost var ba, ca, ea := beliefs.attrs, channel.attrs, env.attrs;
      var r := beliefs.TrackedSet(reg, hist, brf, p, v);
      AttrsRegisteredKept(ea, m, reg.byId);
      CoreKept(agent, intentions, m, reg.byId, old(rt.issued), rt.issued, ba, beliefs.attrs, ca, ca);
      ok := r.Ok?;
      BrfRecords(EventsOf(hist.log[|old(hist.log)|..]), reg.byId, brf);
    }

    /** One access of a review function, through the accessor handed to it
        for that purpose (all of them tracked with the function's id). */
    method RunAccess(env: DataContainer, brf: Id, a: Access) returns (ok: bool)
      requires Valid() && env.Valid(reg) && env != beliefs && env != channel
      requires brf in reg.byId && reg.byId[brf].BeliefReviewFunction?
      modifies reg, rt, hist, beliefs`data, beliefs`attrs, channel`attrs, env`attrs
      ensures Valid() && env.Valid(reg) && LinksOnly(old(reg.byId), reg.byId)
      ensures ok <==> Apply(a, env.data, old(beliefs.data), channel.data).Ok?
      ensures ok ==> Apply(a, env.data, old(beliefs.data), channel.data) == Ok(beliefs.data)
      ensures !ok ==> beliefs.data == old(beliefs.data)
      ensures rt.issued >= old(rt.issued) && LoggedSince(old(hist.log), old(rt.now), [])
    {
      if a.WriteBelief? {
        ApplyWrite(a.path, a.value, env.data, beliefs.data, channel.data);
        ok := ReviewWrite(env, brf, a.path, a.value);
      } else {
        ok := RunRead(env, brf, a);
      }
    }

    /** A reading access, through the getter of the container it names. */
    method RunRead(env: DataContainer, brf: Id, a: Access) returns (ok: bool)
      requires Valid() && env.Valid(reg) && env != beliefs && env != channel && !a.WriteBelief?
      requires brf in reg.byId && reg.byId[brf].BeliefReviewFunction?
      modifies reg, rt, hist, beliefs`attrs, channel`attrs, env`attrs
      ensures Valid() && env.Valid(reg) && LinksOnly(old(reg.byId), reg.byId)
      ensures Apply(a, env.data, beliefs.data, channel.data) == if ok then Ok(beliefs.data) else TypeError
      ensures beliefs.data == old(beliefs.data)
      ensures rt.issued >= old(rt.issued) && LoggedSince(old(hist.log), old(rt.now), [])
    {
      ApplyRead(a, env.data, beliefs.data, channel.data);
      var c := if a.ReadEnv? then env else if a.ReadBelief? then beliefs else channel;
      assert c.data == ReadFrom(a, env.data, beliefs.data, channel.data);
      ok := ReviewRead(env, c, brf, a.path);
    }

    /** One review function's accesses, in order, stopping at the first that
        raises. */
    method RunReview(env: DataContainer, brf: Id, acc: seq<Access>) returns (ok: bool)
      requires Valid() && env.Valid(reg) && env != beliefs && env != channel
      requires brf in reg.byId && reg.byId[brf].BeliefReviewFunction?
      modifies reg, rt, hist, beliefs`data, beliefs`attrs, channel`attrs, env`attrs
      ensures Valid() && env.Valid(reg) && LinksOnly(old(reg.byId), reg.byId)
      ensures ok <==> RunAccesses(acc, env.data, old(beliefs.data), channel.data).Ok?
      ensures ok ==> RunAccesses(acc, env.data, old(beliefs.data), channel.data) == Ok(beliefs.data)
      ensures beliefs.data == AccessesLeave(acc, env.data, old(beliefs.data), channel.data)
      ensures GrowsFrom(old(hist.log), hist.log, old(rt.now), rt.stateDefaultId) && rt.now >= old(rt.now)
      ensures rt.issued >= old(rt.issued)
      ensures RecordsExactly(EventsOf(hist.log[|old(hist.log)|..]), reg.byId, [])
    {
      LogNothing(hist.log);
      var i := 0;
      while i < |acc|
        invariant 0 <= i <= |acc|
        invariant Valid() && env.Valid(reg) && LinksOnly(old(reg.byId), reg.byId)
        invariant brf in reg.byId && reg.byId[brf].BeliefReviewFunction?
        invariant RunAccesses(acc, env.data, old(beliefs.data), channel.data) == RunAccesses(acc[i..], env.data, beliefs.data, channel.data)
        invariant AccessesLeave(acc, env.data, old(beliefs.data), channel.data) == AccessesLeave(acc[i..], env.data, beliefs.data, channel.data)
        invariant GrowsFrom(old(hist.log), hist.log, old(rt.now), rt.stateDefaultId) && rt.now >= old(rt.now)
        invariant rt.issued >= old(rt.issued)
        invariant RecordsExactly(EventsOf(hist.log[|old(hist.log)|..]), reg.byId, [])
      {
        ghost var m := reg.byId;
        ghost var l := hist.log;
        ghost var t := rt.now;
        assert acc[i..][1..] == acc[i + 1..];
        var r := RunAccess(env, brf, acc[i]);
        RecordsGrow(old(hist.log), l, hist.log, old(rt.now), t, rt.stateDefaultId, m, reg.byId, [], []);
        LinksOnlyTransitive(old(reg.byId), m, reg.byId);
        if !r {
          return false;
        }
        LinksOnlyKeepsLists(m, reg.byId, brf);
        i := i + 1;
      }
      ok := true;
    }

    /** The belief-review phase of `deliberateAsync`: every review function
        of the agent in turn, over the environment container. */
    method ReviewAll(env: DataContainer, review: ReviewFn) returns (ok: bool)
      requires Valid() && env.Valid(reg) && env != beliefs && env != channel
      modifies reg, rt, hist, beliefs`data, beliefs`attrs, channel`attrs, env`attrs
      ensures Valid() && env.Valid(reg) && LinksOnly(old(reg.byId), reg.byId)
      ensures var brfs := old(reg.byId)[agent].brfs;
              var rev := Revise(brfs, review, env.data, old(beliefs.data), channel.data);
              (ok <==> rev.Ok?) && (ok ==> rev == Ok(beliefs.data))
      ensures beliefs.data == ReviseLeave(old(reg.byId)[agent].brfs, review, env.data, old(beliefs.data), channel.data)
      ensures GrowsFrom(old(hist.log), hist.log, old(rt.now), rt.stateDefaultId) && rt.now >= old(rt.now)
      ensures rt.issued >= old(rt.issued)
      ensures RecordsExactly(EventsOf(hist.log[|old(hist.log)|..]), reg.byId, [])
    {
      ghost var m0 := reg.byId;
      LinksOnlyKeepsLists(m0, m0, agent);
      var brfs := reg.byId[agent].brfs;
      assert EntityTyped(m0, m0[agent]);
      LogNothing(hist.log);
      ghost var b0, l0, lo, iss0 := beliefs.data, hist.log, rt.now, rt.issued;
      assert brfs[0..] == brfs;
      var i := 0;
      while i < |brfs|
        invariant Valid() && env.Valid(reg) && LinksOnly(m0, reg.byId)
        invariant ReviewsOn(brfs, review, env.data, b0, channel.data, beliefs.data, i)
        invariant rt.issued >= iss0 && LoggedSince(l0, lo, [])
      {
        var r;
        r, i := ReviewStep(env, review, brfs, i, m0, b0, l0, lo, iss0);
        if !r {
          return false;
        }
      }
      ok := true;
    }

    /** The call of the `i`-th review function of the phase, with the
        beliefs its predecessors left. */
    method ReviewStep(env: DataContainer, review: ReviewFn, brfs: seq<Id>, i: nat, ghost m0: map<Id, Entity>,
                      ghost b0: Value, ghost l0: seq<State>, ghost lo: int, ghost iss0: set<Id>)
      returns (ok: bool, i2: nat)
      requires Valid() && env.Valid(reg) && env != beliefs && env != channel
      requires i < |brfs| && LinksOnly(m0, reg.byId) && IsKind(m0, brfs[i], BrfKind)
      requires ReviewsOn(brfs, review, env.data, b0, channel.data, beliefs.data, i)
      requires rt.issued >= iss0 && LoggedSince(l0, lo, [])
      modifies reg, rt, hist, beliefs`data, beliefs`attrs, channel`attrs, env`attrs
      ensures Valid() && env.Valid(reg) && LinksOnly(m0, reg.byId)
      ensures ok ==> i2 == i + 1 && ReviewsOn(brfs, review, env.data, b0, channel.data, beliefs.data, i2)
      ensures !ok ==> Revise(brfs, review, env.data, b0, channel.data).TypeError? &&
                      ReviseLeave(brfs, review, env.data, b0, channel.data) == beliefs.data
      ensures rt.issued >= iss0 && LoggedSince(l0, lo, [])
    {
      ghost var m := reg.byId;
      ghost var l := hist.log;
      ghost var t := rt.now;
      LinksOnlyExtends(m0, m);
      ReviseStep(brfs, review, env.data, beliefs.data, channel.data, i);
      var acc := review(brfs[i], env.data, beliefs.data, channel.data);
      ok := RunReview(env, brfs[i], acc);
      RecordsGrow(l0, l, hist.log, lo, t, rt.stateDefaultId, m, reg.byId, [], []);
      LinksOnlyTransitive(m0, m, reg.byId);
      i2 := i + 1;
    }

    /** Read `paths[i]` through the tracked belief getter handed to
        promotion `pid`, after the reads of `paths[..i]` all succeeded. */
    method ReadPath(pid: Id, paths: seq<string>, i: nat, ghost data: Value) returns (ok: bool)
      requires i < |paths| && beliefs.data == data && ReadsOk(data, paths[..i])
      requires Valid() && IsKind(reg.byId, pid, PromotionKind)
      modifies reg, rt, hist, beliefs`attrs
      ensures Valid() && LinksOnly(old(reg.byId), reg.byId) && IsKind(reg.byId, pid, PromotionKind)
      ensures beliefs.data == data
      ensures ok ==> ReadsOk(data, paths[..i + 1])
      ensures !ok ==> !ReadsOk(data, paths)
      ensures GrowsFrom(old(hist.log), hist.log, old(rt.now), rt.stateDefaultId) && rt.now >= old(rt.now)
      ensures rt.issued >= old(rt.issued)
      ensures var k, v := beliefs.name + "." + paths[i], Read(data, Split(paths[i]));
              k in beliefs.attrs && IsKind(reg.byId, beliefs.attrs[k], AttributeKind) &&
              EventsOf(hist.log[|old(hist.log)|..]) == if v.Ok? && v.value != Null then [Event(beliefs.attrs[k], pid, v.value)] else []
      ensures RecordsExactly(EventsOf(hist.log[|old(hist.log)|..]), reg.byId, [])
    {
      ghost var m := reg.byId;
      var r := beliefs.TrackedGet(reg, hist, pid, Null, paths[i]);
      CoreKept(agent, intentions, m, reg.byId, old(rt.issued), rt.issued, old(beliefs.attrs), beliefs.attrs, channel.attrs, channel.attrs);
      LinksOnlyExtends(m, reg.byId);
      ok := r.Ok?;
      ReadsOkStep(data, paths, i, ok);
      AttributeRecords(EventsOf(hist.log[|old(hist.log)|..]), reg.byId, beliefs.attrs[beliefs.name + "." + paths[i]], pid, r);
    }

    /** The reads one promotion call makes through the tracked belief getter
        handed to it, stopping at the first that raises. */
    method ReadPaths(pid: Id, paths: seq<string>) returns (ok: bool)
      requires Valid() && IsKind(reg.byId, pid, PromotionKind)
      modifies reg, rt, hist, beliefs`attrs
      ensures Valid() && LinksOnly(old(reg.byId), reg.byId)
      ensures ok <==> ReadsOk(beliefs.data, paths)
      ensures rt.issued >= old(rt.issued) && LoggedSince(old(hist.log), old(rt.now), [])
    {
      ghost var data := beliefs.data;
      LogNothing(hist.log);
      var i := 0;
      while i < |paths|
        invariant 0 <= i <= |paths| && beliefs.data == data
        invariant Valid() && LinksOnly(old(reg.byId), reg.byId) && IsKind(reg.byId, pid, PromotionKind)
        invariant ReadsOk(data, paths[..i])
        invariant rt.issued >= old(rt.issued) && LoggedSince(old(hist.log), old(rt.now), [])
      {
        ghost var m := reg.byId;
        ghost var l := hist.log;
        ghost var t := rt.now;
        var r := ReadPath(pid, paths, i, data);
        RecordsGrow(old(hist.log), l, hist.log, old(rt.now), t, rt.stateDefaultId, m, reg.byId, [], []);
        LinksOnlyTransitive(old(reg.byId), m, reg.byId);
        if !r {
          return false;
        }
        i := i + 1;
      }
      assert paths[..i] == paths;
      ok := true;
    }

    /** One call of a promotion function with the clone's priority: its
        reads, then, when it returns a priority, the promotion of the clone
        and its record from the promotion to the goal. */
    method CallPromotion(pid: Id, c: Clone, promo: PromotionFn) returns (ok: bool, c2: Option<Clone>)
      requires Valid() && IsKind(reg.byId, pid, PromotionKind)
      modifies reg, rt, hist, beliefs`attrs
      ensures Valid() && LinksOnly(old(reg.byId), reg.byId)
      ensures var call := promo(pid, c.priority, beliefs.data);
              (ok <==> ReadsOk(beliefs.data, call.0)) &&
              (ok ==> c2 == if call.1.None? then None else Some(Promote(c, NameOf(old(reg.byId), pid), call.1.value)))
      ensures rt.issued >= old(rt.issued)
      ensures var call := promo(pid, c.priority, beliefs.data);
              LoggedSince(old(hist.log), old(rt.now),
                          if ok && call.1.Some? then [Event(pid, c.goalId, PromotionValue(call.1.value, c.cloneId))] else [])
    {
      ghost var m0 := reg.byId;
      var call := promo(pid, c.priority, beliefs.data);
      ok := ReadPaths(pid, call.0);
      c2 := None;
      if ok && call.1.Some? {
        var nc := ApplyPromotion(pid, c, call.1.value, m0, old(hist.log), old(rt.now));
        c2 := Some(nc);
      }
    }

    /** A promotion that returned `priority` for clone `c`: the clone is
        promoted with the promotion's name (in `m0`, before its reads linked
        attributes), and the history gets an entry from the promotion to the
        goal. */
    method ApplyPromotion(pid: Id, c: Clone, priority: int, ghost m0: map<Id, Entity>, ghost l0: seq<State>, ghost lo: int) returns (nc: Clone)
      requires Valid() && IsKind(reg.byId, pid, PromotionKind) && LinksOnly(m0, reg.byId) && pid in m0
      requires LoggedSince(l0, lo, [])
      modifies hist, rt`now
      ensures Valid() && nc == Promote(c, NameOf(m0, pid), priority)
      ensures LoggedSince(l0, lo, [Event(pid, c.goalId, PromotionValue(priority, c.cloneId))])
    {
      ghost var l, t := hist.log, rt.now;
      var e := Event(pid, c.goalId, PromotionValue(priority, c.cloneId));
      LinksOnlyKeepsLists(m0, reg.byId, pid);
      nc := Promote(c, reg.byId[pid].name, priority);
      Record(hist, rt, pid, c.goalId, PromotionValue(priority, c.cloneId));
      assert Valid();
      RecordOne(e, reg.byId);
      RecordsGrow(l0, l, hist.log, lo, t, rt.stateDefaultId, reg.byId, reg.byId, [], [e]);
    }

    /** The promotion loop of one clone: its goal's target promotions in
        order; `None` from a promotion ends the loop. */
    method Climbing(c0: Clone, prs: seq<Id>, promo: PromotionFn) returns (r: Result<Clone>)
      requires Valid() && AllOf(reg.byId, prs, PromotionKind)
      modifies reg, rt, hist, beliefs`attrs
      ensures Valid() && LinksOnly(old(reg.byId), reg.byId)
      ensures r == Climb(c0, prs, Names(old(reg.byId), prs), promo, beliefs.data)
      ensures rt.issued >= old(rt.issued)
      ensures LoggedSince(old(hist.log), old(rt.now), ClimbRecords(c0, prs, Names(old(reg.byId), prs), promo, beliefs.data))
    {
      ghost var m0 := reg.byId;
      ghost var names := Names(m0, prs);
      LogNothing(hist.log);
      r := ClimbFrom(c0, prs, promo, m0, names, beliefs.data, hist.log, rt.now, rt.issued, ClimbRecords(c0, prs, names, promo, beliefs.data));
    }

    /** The promotion loop, stated over the registry `m0`, beliefs `b`, log
        `l0` and clock `lo` it starts from, with `all` the records it is to
        make. */
    method ClimbFrom(c0: Clone, prs: seq<Id>, promo: PromotionFn, ghost m0: map<Id, Entity>, ghost names: seq<string>, ghost b: Value,
                     ghost l0: seq<State>, ghost lo: int, ghost iss0: set<Id>, ghost all: seq<Event>)
      returns (r: Result<Clone>)
      requires Valid() && LinksOnly(m0, reg.byId) && AllOf(m0, prs, PromotionKind) && names == Names(m0, prs)
      requires beliefs.data == b && all == ClimbRecords(c0, prs, names, promo, b)
      requires rt.issued >= iss0 && LoggedSince(l0, lo, [])
      modifies reg, rt, hist, beliefs`attrs
      ensures Valid() && LinksOnly(m0, reg.byId) && beliefs.data == b
      ensures r == Climb(c0, prs, names, promo, b)
      ensures rt.issued >= iss0 && LoggedSince(l0, lo, all)
    {
      var c := c0;
      ghost var done: seq<Event> := [];
      assert all == done + all && prs[0..] == prs && names[0..] == names;
      var i := 0;
      while i < |prs|
        invariant 0 <= i <= |prs| && beliefs.data == b
        invariant Valid() && LinksOnly(m0, reg.byId)
        invariant ClimbsOn(c0, prs, names, promo, b, all, c, i, done)
        invariant rt.issued >= iss0 && LoggedSince(l0, lo, done)
      {
        var ok, more;
        ok, more, c, i, done := ClimbTurn(c0, c, prs, i, promo, m0, names, b, l0, lo, iss0, all, done);
        if !ok {
          return TypeError;
        }
        if !more {
          break;
        }
      }
      if i == |prs| {
        ClimbsOnEnd(c0, prs, names, promo, b, all, c, done);
      }
      r := Ok(c);
    }

    /** One turn of the promotion loop: the `i`-th target promotion, called
        with the clone the loop has made so far, after the loop recorded
        `done` since `l0` out of the `all` it records. */
    method ClimbTurn(ghost c0: Clone, c: Clone, prs: seq<Id>, i: nat, promo: PromotionFn, ghost m0: map<Id, Entity>, ghost names: seq<string>, ghost b: Value,
                     ghost l0: seq<State>, ghost lo: int, ghost iss0: set<Id>, ghost all: seq<Event>, ghost done: seq<Event>)
      returns (ok: bool, more: bool, c2: Clone, i2: nat, ghost done2: seq<Event>)
      requires Valid() && LinksOnly(m0, reg.byId) && AllOf(m0, prs, PromotionKind) && names == Names(m0, prs) && i < |prs|
      requires beliefs.data == b && ClimbsOn(c0, prs, names, promo, b, all, c, i, done)
      requires rt.issued >= iss0 && LoggedSince(l0, lo, done)
      modifies reg, rt, hist, beliefs`attrs
      ensures Valid() && LinksOnly(m0, reg.byId)
      ensures rt.issued >= iss0 && LoggedSince(l0, lo, done2)
      ensures !ok ==> Climb(c0, prs, names, promo, b) == TypeError && all == done2
      ensures ok && !more ==> c2 == c && i2 == i && Climb(c0, prs, names, promo, b) == Ok(c) && all == done2
      ensures ok && more ==> i2 == i + 1 && ClimbsOn(c0, prs, names, promo, b, all, c2, i2, done2)
    {
      ghost var m := reg.byId;
      ghost var l := hist.log;
      ghost var t := rt.now;
      PromotionStep(m0, m, prs, names, i);
      ClimbRecordsAt(c, prs, names, promo, b, i);
      ghost var call := promo(prs[i], c.priority, b);
      var next;
      ok, next := CallPromotion(prs[i], c, promo);
      more := ok && next.Some?;
      c2, i2 := if more then next.value else c, if more then i + 1 else i;
      ghost var rec := if ok && call.1.Some? then [Event(prs[i], c.goalId, PromotionValue(call.1.value, c.cloneId))] else [];
      LinksOnlyTransitive(m0, m, reg.byId);
      RecordsGrow(l0, l, hist.log, lo, t, rt.stateDefaultId, m, reg.byId, done, rec);
      done2 := done + rec;
      if ok && next.Some? {
        Shift(all, done, rec, ClimbRecords(c, prs[i..], names[i..], promo, b), ClimbRecords(next.value, prs[i + 1..], names[i + 1..], promo, b));
      } else {
        assert done + [] == done;
      }
    }

    /** One goal of the promotion phase: `getClone()`, then the promotion
        loop over the clone's target promotions. */
    method PromoteGoal(goalId: Id, promo: PromotionFn) returns (c0: Clone, r: Result<Clone>)
      requires Valid() && IsKind(reg.byId, goalId, GoalKind)
      modifies reg, rt, hist, beliefs`attrs
      ensures Valid() && LinksOnly(old(reg.byId), reg.byId)
      ensures c0.goalId == goalId && c0.priority == 0 && c0.status == []
      ensures c0.cloneId !in old(rt.issued) && c0.cloneId in rt.issued
      ensures r == ClimbGoal(old(reg.byId), c0, promo, beliefs.data)
      ensures rt.issued >= old(rt.issued) && LoggedSince(old(hist.log), old(rt.now), GoalRecords(old(reg.byId), c0, promo, beliefs.data))
    {
      ghost var m0 := reg.byId;
      c0 := GetClone(rt, goalId);
      CoreKept(agent, intentions, m0, m0, old(rt.issued), rt.issued, beliefs.attrs, beliefs.attrs, channel.attrs, channel.attrs);
      var prs := reg.byId[goalId].promotions;
      assert EntityTyped(m0, m0[goalId]);
      r := Climbing(c0, prs, promo);
    }

    /** One goal of the promotion phase: its clone, climbed, and inserted
        (`bisect.insort`) when it reaches its final state. */
    method AddGoal(goalId: Id, promo: PromotionFn) returns (c0: Clone, ok: bool)
      requires Valid() && IsKind(reg.byId, goalId, GoalKind)
      modifies this`intentions, reg, rt, hist, beliefs`attrs
      ensures Valid() && LinksOnly(old(reg.byId), reg.byId)
      ensures c0.goalId == goalId && c0.priority == 0 && c0.status == []
      ensures c0.cloneId !in old(rt.issued) && c0.cloneId in rt.issued
      ensures ok <==> ClimbGoal(old(reg.byId), c0, promo, beliefs.data).Ok?
      ensures intentions == EnqueueOne(old(intentions), c0, old(reg.byId), promo, beliefs.data)
      ensures rt.issued >= old(rt.issued) && LoggedSince(old(hist.log), old(rt.now), GoalRecords(old(reg.byId), c0, promo, beliefs.data))
    {
      ghost var m0 := reg.byId;
      var r;
      c0, r := PromoteGoal(goalId, promo);
      if r.TypeError? {
        return c0, false;
      }
      var nc := r.value;
      ClimbKeepsClone(m0, c0, promo, beliefs.data);
      LinksOnlyKeepsLists(m0, reg.byId, goalId);
      if |reg.byId[goalId].promotions| == |nc.status| {
        QueueFresh(intentions, old(rt.issued), nc.cloneId);
        Insort(nc);
      }
      ok := true;
    }

    /** `bisect.insort(self.intentions, clone)` for a clone not yet queued. */
    method Insort(nc: Clone)
      requires Valid() && IsKind(reg.byId, nc.goalId, GoalKind) && nc.cloneId in rt.issued
      requires forall k :: 0 <= k < |intentions| ==> intentions[k].cloneId != nc.cloneId
      modifies this`intentions
      ensures Valid() && intentions == Insert(old(intentions), nc, Priority)
    {
      QueueInsert(intentions, nc, reg.byId, rt.issued);
      intentions := InsortRight(intentions, nc, Priority);
    }

    /** The promotion phase of `deliberateAsync`: a clone of every goal of
        the agent, in order. */
    method PromoteAll(promo: PromotionFn) returns (ok: bool, clones: seq<Clone>)
      requires Valid()
      modifies this`intentions, reg, rt, hist, beliefs`attrs
      ensures Valid() && LinksOnly(old(reg.byId), reg.byId)
      ensures var gs := old(reg.byId)[agent].goals;
              |clones| <= |gs| && (ok <==> |clones| == |gs| && ClimbsOk(old(reg.byId), clones, promo, beliefs.data))
      ensures intentions == Enqueue(old(intentions), clones, old(reg.byId), promo, beliefs.data)
      ensures FreshClones(clones, old(reg.byId)[agent].goals, old(rt.issued))
      ensures rt.issued >= old(rt.issued)
      ensures LoggedSince(old(hist.log), old(rt.now), EnqueueRecords(clones, old(reg.byId), promo, beliefs.data))
    {
      ghost var m0 := reg.byId;
      LinksOnlyKeepsLists(m0, m0, agent);
      var gs := reg.byId[agent].goals;
      assert EntityTyped(m0, m0[agent]);
      LogNothing(hist.log);
      clones := [];
      var i := 0;
      while i < |gs|
        invariant 0 <= i <= |gs| && |clones| == i
        invariant Valid() && LinksOnly(m0, reg.byId)
        invariant ClimbsOk(m0, clones, promo, beliefs.data)
        invariant intentions == Enqueue(old(intentions), clones, m0, promo, beliefs.data)
        invariant FreshClones(clones, gs, old(rt.issued))
        invariant forall k :: 0 <= k < |clones| ==> clones[k].cloneId in rt.issued
        invariant rt.issued >= old(rt.issued)
        invariant LoggedSince(old(hist.log), old(rt.now), EnqueueRecords(clones, m0, promo, beliefs.data))
      {
        LinksOnlyExtends(m0, reg.byId);
        assert gs[i] in gs;
        var c0, r := PromoteTurn(gs, clones, promo, m0, old(intentions), old(rt.issued), old(hist.log), old(rt.now));
        clones := clones + [c0];
        if !r {
          return false, clones;
        }
        i := i + 1;
      }
      ok := true;
    }

    /** One goal of the promotion phase, as a step of it: the clones made so
        far are fresh clones of the first goals, and the queue is what the
        phase has made of them. */
    method PromoteTurn(gs: seq<Id>, clones: seq<Clone>, promo: PromotionFn, ghost m0: map<Id, Entity>, ghost q0: seq<Clone>, ghost iss0: set<Id>,
                       ghost l0: seq<State>, ghost lo: int)
      returns (c0: Clone, ok: bool)
      requires Valid() && LinksOnly(m0, reg.byId) && WellFormed(m0) && |clones| < |gs| && IsKind(m0, gs[|clones|], GoalKind)
      requires ClimbsOk(m0, clones, promo, beliefs.data) && intentions == Enqueue(q0, clones, m0, promo, beliefs.data)
      requires FreshClones(clones, gs, iss0) && iss0 <= rt.issued
      requires forall k :: 0 <= k < |clones| ==> clones[k].cloneId in rt.issued
      requires LoggedSince(l0, lo, EnqueueRecords(clones, m0, promo, beliefs.data))
      modifies this`intentions, reg, rt, hist, beliefs`attrs
      ensures Valid() && LinksOnly(m0, reg.byId)
      ensures FreshClones(clones + [c0], gs, iss0) && forall k :: 0 <= k < |clones| + 1 ==> (clones + [c0])[k].cloneId in rt.issued
      ensures intentions == Enqueue(q0, clones + [c0], m0, promo, beliefs.data)
      ensures ok <==> ClimbsOk(m0, clones + [c0], promo, beliefs.data)
      ensures rt.issued >= old(rt.issued)
      ensures LoggedSince(l0, lo, EnqueueRecords(clones + [c0], m0, promo, beliefs.data))
    {
      ghost var m := reg.byId;
      ghost var l := hist.log;
      ghost var t := rt.now;
      LinksOnlyExtends(m0, m);
      c0, ok := AddGoal(gs[|clones|], promo);
      LinksOnlyTransitive(m0, m, reg.byId);
      PromoteAllStep(q0, old(intentions), intentions, clones, c0, ok, gs, m0, m, promo, beliefs.data, iss0, old(rt.issued), rt.issued);
      RecordsGrow(l0, l, hist.log, lo, t, rt.stateDefaultId, m, reg.byId,
                  EnqueueRecords(clones, m0, promo, beliefs.data), GoalRecords(m0, c0, promo, beliefs.data));
    }

    /** `deliberateAsync(data)`: keep the environment, revise the beliefs
        over it, then promote the agent's goals into the queue.  A raising
        access aborts the deliberation where it happens. */
    method Deliberate(data: Value, review: ReviewFn, promo: PromotionFn) returns (ok: bool, clones: seq<Clone>)
      requires Valid()
      modifies this`environment, this`intentions, reg, rt, hist, beliefs`data, beliefs`attrs, channel`attrs
      ensures Valid() && environment == data && LinksOnly(old(reg.byId), reg.byId)
      ensures var m0 := old(reg.byId);
              var rev := Revise(m0[agent].brfs, review, data, old(beliefs.data), channel.data);
              var gs := m0[agent].goals;
              && (rev.TypeError? ==> !ok && clones == [] && intentions == old(intentions))
              && (rev.Ok? ==> beliefs.data == rev.value && |clones| <= |gs|)
              && (ok <==> rev.Ok? && |clones| == |gs| && ClimbsOk(m0, clones, promo, rev.value))
              && (rev.Ok? ==> intentions == Enqueue(old(intentions), clones, m0, promo, rev.value))
              && beliefs.data == ReviseLeave(m0[agent].brfs, review, data, old(beliefs.data), channel.data)
      ensures FreshClones(clones, old(reg.byId)[agent].goals, old(rt.issued))
      ensures GrowsFrom(old(hist.log), hist.log, old(rt.now), rt.stateDefaultId) && rt.now >= old(rt.now)
      ensures var rev := Revise(old(reg.byId)[agent].brfs, review, data, old(beliefs.data), channel.data);
              RecordsExactly(EventsOf(hist.log[|old(hist.log)|..]), reg.byId,
                             if rev.Ok? then EnqueueRecords(clones, old(reg.byId), promo, rev.value) else [])
    {
      ghost var m0 := reg.byId;
      assert WellFormed(m0) && EntityTyped(m0, m0[agent]);
      environment := data;
      var env := new DataContainer("env", data);
      var reviewed := ReviewAll(env, review);
      clones := [];
      if !reviewed {
        return false, clones;
      }
      ghost var l := hist.log;
      ghost var t := rt.now;
      ghost var m1 := reg.byId;
      ok, clones := PromoteFrom(promo, m0, old(rt.issued));
      RecordsGrow(old(hist.log), l, hist.log, old(rt.now), t, rt.stateDefaultId, m1, reg.byId,
                  [], EnqueueRecords(clones, m0, promo, beliefs.data));
    }

    /** The promotion phase of `deliberateAsync`, after belief review has
        linked attributes into `m0`, the registry the deliberation began
        with: what it does, stated over `m0`. */
    method PromoteFrom(promo: PromotionFn, ghost m0: map<Id, Entity>, ghost iss0: set<Id>) returns (ok: bool, clones: seq<Clone>)
      requires Valid() && LinksOnly(m0, reg.byId) && WellFormed(m0) && iss0 <= rt.issued
      requires agent in m0 && m0[agent].Agent? && EntityTyped(m0, m0[agent])
      modifies this`intentions, reg, rt, hist, beliefs`attrs
      ensures Valid() && LinksOnly(m0, reg.byId) && LinksOnly(old(reg.byId), reg.byId)
      ensures var gs := m0[agent].goals;
              |clones| <= |gs| && (ok <==> |clones| == |gs| && ClimbsOk(m0, clones, promo, beliefs.data))
      ensures intentions == Enqueue(old(intentions), clones, m0, promo, beliefs.data)
      ensures FreshClones(clones, m0[agent].goals, iss0)
      ensures GrowsFrom(old(hist.log), hist.log, old(rt.now), rt.stateDefaultId) && rt.now >= old(rt.now)
      ensures RecordsExactly(EventsOf(hist.log[|old(hist.log)|..]), reg.byId, EnqueueRecords(clones, m0, promo, beliefs.data))
    {
      ghost var m1 := reg.byId;
      ghost var iss := rt.issued;
      ghost var gs := m0[agent].goals;
      LinksOnlyKeepsLists(m0, m1, agent);
      assert m1[agent].goals == gs;
      ok, clones := PromoteAll(promo);
      assert FreshClones(clones, gs, iss);
      LinksOnlyTransitive(m0, m1, reg.byId);
      CloneGoalsTyped(m0, agent, clones, iss);
      EnqueueKept(old(intentions), clones, m0, m1, promo, beliefs.data);
      FreshClonesWiden(clones, gs, iss0, iss);
    }

    /** The inner loop of `_detectConflicts` for one conflict: the first
        queued clone of one of its goals is chosen, the later ones (as a set)
        are to be removed; each key exists only once something was put in
        it. */
    method ConflictMembers(c: Id) returns (chosen: Option<Id>, toRemove: Option<seq<Id>>)
      requires IsKind(reg.byId, c, ConflictKind)
      ensures var ms := Members(reg.byId, c, intentions);
              && (chosen.Some? <==> ms != []) && (chosen.Some? ==> chosen.value == ms[0])
              && (toRemove.Some? <==> |ms| >= 2) && (toRemove.Some? ==> toRemove.value == Dedup(ms[1..]))
    {
      var goalsIds := reg.byId[c].goals;
      chosen, toRemove := None, None;
      var j := 0;
      while j < |intentions|
        invariant 0 <= j <= |intentions|
        invariant var ms := Members(reg.byId, c, intentions[..j]);
                  && (chosen.Some? <==> ms != []) && (chosen.Some? ==> chosen.value == ms[0])
                  && (toRemove.Some? <==> |ms| >= 2) && (toRemove.Some? ==> toRemove.value == Dedup(ms[1..]))
      {
        ghost var ms := Members(reg.byId, c, intentions[..j]);
        assert intentions[..j + 1][..j] == intentions[..j];
        var goal := intentions[j];
        if goal.goalId in goalsIds {
          assert Members(reg.byId, c, intentions[..j + 1]) == ms + [goal.cloneId];
          if chosen.None? {
            chosen := Some(goal.cloneId);
          } else {
            assert (ms + [goal.cloneId])[1..] == ms[1..] + [goal.cloneId];
            var old_ := if toRemove.Some? then toRemove.value else [];
            if toRemove.None? {
              assert ms[1..] == [];
            }
            toRemove := Some(if goal.cloneId in old_ then old_ else old_ + [goal.cloneId]);
          }
        }
        j := j + 1;
      }
      assert intentions[..j] == intentions;
    }

    /** `_detectConflicts()`: a resolution for every conflict of the agent
        with at least two queued clones. */
    method DetectConflicts() returns (res: map<Id, Resolution>)
      requires Valid()
      ensures res == Detect(reg.byId, reg.byId[agent].conflicts, intentions)
    {
      var conflicts := reg.byId[agent].conflicts;
      assert EntityTyped(reg.byId, reg.byId[agent]);
      res := map[];
      var i := 0;
      while i < |conflicts|
        invariant 0 <= i <= |conflicts|
        invariant res == Detect(reg.byId, conflicts[..i], intentions)
      {
        assert conflicts[..i + 1][..i] == conflicts[..i];
        assert conflicts[i] in conflicts;
        var chosen, toRemove := ConflictMembers(conflicts[i]);
        if chosen.Some? && toRemove.Some? {
          res := res[conflicts[i] := Resolution(chosen.value, toRemove.value)];
        }
        i := i + 1;
      }
      assert conflicts[..i] == conflicts;
    }

    /** The innermost loop of the conflict handling: every clone a detected
        conflict drops is remembered and recorded from the conflict. */
    method RecordRemovals(c: Id, chosen: Id, ids: seq<Id>, removed: set<Id>) returns (removed2: set<Id>)
      requires hist.Valid()
      modifies hist, rt`now
      ensures GrowsFrom(old(hist.log), hist.log, old(rt.now), rt.stateDefaultId) && rt.now >= old(rt.now)
      ensures hist.Valid() && removed2 == removed + Elems(ids)
      ensures EventsOf(hist.log[|old(hist.log)|..]) == RemovalEvents(c, chosen, ids)
    {
      removed2 := removed;
      LogNothing(hist.log);
      var i := 0;
      while i < |ids|
        invariant 0 <= i <= |ids| && hist.Valid()
        invariant GrowsFrom(old(hist.log), hist.log, old(rt.now), rt.stateDefaultId) && rt.now >= old(rt.now)
        invariant removed2 == removed + Elems(ids[..i])
        invariant RemovalEvents(c, chosen, ids) == EventsOf(hist.log[|old(hist.log)|..]) + RemovalEvents(c, chosen, ids[i..])
      {
        ghost var l := hist.log;
        ghost var t := rt.now;
        ghost var e := EventsOf(hist.log[|old(hist.log)|..]);
        RemovalStep(c, chosen, ids, i);
        UnionShift(removed, Elems(ids[..i]), {ids[i]});
        removed2 := removed2 + {ids[i]};
        Record(hist, rt, c, "", ConflictValue(chosen, ids[i]));
        LogGrows(old(hist.log), l, hist.log, old(rt.now), t, rt.stateDefaultId);
        Shift(RemovalEvents(c, chosen, ids), e, [Event(c, "", ConflictValue(chosen, ids[i]))], RemovalEvents(c, chosen, ids[i..]), RemovalEvents(c, chosen, ids[i + 1..]));
        i := i + 1;
      }
      assert ids[..i] == ids;
    }

    /** The conflict loop over the popped goal's conflicts. */
    method ResolveHead(gcs: seq<Id>, det: map<Id, Resolution>, removed: set<Id>) returns (removed2: set<Id>)
      requires hist.Valid()
      modifies hist, rt`now
      ensures GrowsFrom(old(hist.log), hist.log, old(rt.now), rt.stateDefaultId) && rt.now >= old(rt.now)
      ensures hist.Valid() && removed2 == removed + Removed(gcs, det)
      ensures EventsOf(hist.log[|old(hist.log)|..]) == Resolve(gcs, det)
    {
      removed2 := removed;
      LogNothing(hist.log);
      var i := 0;
      while i < |gcs|
        invariant 0 <= i <= |gcs| && hist.Valid()
        invariant GrowsFrom(old(hist.log), hist.log, old(rt.now), rt.stateDefaultId) && rt.now >= old(rt.now)
        invariant removed + Removed(gcs, det) == removed2 + Removed(gcs[i..], det)
        invariant Resolve(gcs, det) == EventsOf(hist.log[|old(hist.log)|..]) + Resolve(gcs[i..], det)
      {
        ghost var l := hist.log;
        ghost var t := rt.now;
        ghost var e := EventsOf(hist.log[|old(hist.log)|..]);
        ResolveStep(gcs, det, i);
        var c := gcs[i];
        UnionShift(removed2, if c in det then Elems(det[c].toRemove) else {}, Removed(gcs[i + 1..], det));
        if c in det {
          removed2 := RecordRemovals(c, det[c].chosen, det[c].toRemove, removed2);
          LogGrows(old(hist.log), l, hist.log, old(rt.now), t, rt.stateDefaultId);
          Shift(Resolve(gcs, det), e, RemovalEvents(c, det[c].chosen, det[c].toRemove), Resolve(gcs[i..], det), Resolve(gcs[i + 1..], det));
        } else {
          Shift(Resolve(gcs, det), e, [], Resolve(gcs[i..], det), Resolve(gcs[i + 1..], det));
        }
        i := i + 1;
      }
    }

    /** The plan-selection loop: starting from the first plan, a plan whose
        priority the goal's priority reaches replaces the current choice
        when it has a higher priority.  The loop variable ends on the last
        plan. */
    method SelectPlan(g: Clone, plans: seq<Id>) returns (chosen: Id, last: Id)
      requires plans != []
      ensures last == plans[|plans| - 1] && chosen in plans
      ensures PlanPriority(reg.byId, plans[0]) > g.priority ==> chosen == plans[0]
      ensures PlanPriority(reg.byId, plans[0]) <= g.priority ==>
                PlanPriority(reg.byId, chosen) <= g.priority &&
                forall p :: p in plans && PlanPriority(reg.byId, p) <= g.priority ==> PlanPriority(reg.byId, p) <= PlanPriority(reg.byId, chosen)
    {
      chosen := plans[0];
      last := plans[0];
      var i := 0;
      while i < |plans|
        invariant 0 <= i <= |plans| && chosen in plans
        invariant i > 0 ==> last == plans[i - 1]
        invariant PlanPriority(reg.byId, plans[0]) > g.priority ==> chosen == plans[0]
        invariant PlanPriority(reg.byId, plans[0]) <= g.priority ==>
                    PlanPriority(reg.byId, chosen) <= g.priority &&
                    forall k :: 0 <= k < i && PlanPriority(reg.byId, plans[k]) <= g.priority ==> PlanPriority(reg.byId, plans[k]) <= PlanPriority(reg.byId, chosen)
      {
        last := plans[i];
        var pr := PlanPriority(reg.byId, last);
        if g.priority >= pr {
          if pr > PlanPriority(reg.byId, chosen) {
            chosen := last;
          }
        }
        i := i + 1;
      }
    }

    /** The execution of the popped goal's plan: the plan is recorded from the
        goal, then each action runs (with the untracked beliefs getter) and
        its outcome is recorded from the plan. */
    method RunPlan(g: Clone, plan: Id, act: ActionFn)
      requires hist.Valid()
      modifies hist, rt`now
      ensures GrowsFrom(old(hist.log), hist.log, old(rt.now), rt.stateDefaultId) && rt.now >= old(rt.now)
      ensures hist.Valid()
      ensures EventsOf(hist.log[|old(hist.log)|..]) ==
        [Event(g.goalId, plan, PlanValue(g.cloneId, g.priority))] + ActionEvents(plan, ActionsOfPlan(reg.byId, plan), g.cloneId, act, beliefs.data)
    {
      Record(hist, rt, g.goalId, plan, PlanValue(g.cloneId, g.priority));
      var actions := if plan in reg.byId && reg.byId[plan].Plan? then reg.byId[plan].actions else [];
      var i := 0;
      while i < |actions|
        invariant 0 <= i <= |actions| && hist.Valid()
        invariant GrowsFrom(old(hist.log), hist.log, old(rt.now), rt.stateDefaultId) && rt.now >= old(rt.now)
        invariant [Event(g.goalId, plan, PlanValue(g.cloneId, g.priority))] + ActionEvents(plan, actions, g.cloneId, act, beliefs.data) ==
                  EventsOf(hist.log[|old(hist.log)|..]) + ActionEvents(plan, actions[i..], g.cloneId, act, beliefs.data)
      {
        ghost var l := hist.log;
        ghost var t := rt.now;
        ghost var e := EventsOf(hist.log[|old(hist.log)|..]);
        ActionStep(plan, actions, g.cloneId, act, beliefs.data, i);
        var outcome := act(actions[i], beliefs.data);
        Record(hist, rt, plan, actions[i], ActionValue(g.cloneId, outcome));
        LogGrows(old(hist.log), l, hist.log, old(rt.now), t, rt.stateDefaultId);
        Shift([Event(g.goalId, plan, PlanValue(g.cloneId, g.priority))] + ActionEvents(plan, actions, g.cloneId, act, beliefs.data), e,
              [Event(plan, actions[i], ActionValue(g.cloneId, outcome))],
              ActionEvents(plan, actions[i..], g.cloneId, act, beliefs.data), ActionEvents(plan, actions[i + 1..], g.cloneId, act, beliefs.data));
        i := i + 1;
      }
    }

    /** The first half of an iteration of the pass: detect conflicts on the
        whole queue, pop the head and, unless it was already removed, drop
        the clones its conflicts rule out.  The postconditions tie what was
        recorded to the head's turn of the pass specification: skipped,
        failing for want of plans, or about to run its last plan. */
    method PopHead(conflicts: seq<Id>, act: ActionFn, removed: set<Id>, ghost drain: (seq<Clone>, set<Id>) -> Drained)
      returns (g: Clone, removed2: set<Id>)
      requires Valid() && intentions != [] && conflicts == reg.byId[agent].conflicts
      requires Drains(drain, reg.byId, conflicts, act, beliefs.data)
      modifies this`intentions, hist, rt`now
      ensures GrowsFrom(old(hist.log), hist.log, old(rt.now), rt.stateDefaultId) && rt.now >= old(rt.now)
      ensures Valid() && g == old(intentions)[0] && intentions == old(intentions)[1..]
      ensures IsKind(reg.byId, g.goalId, GoalKind)
      ensures var e := EventsOf(hist.log[|old(hist.log)|..]);
              g.cloneId in removed2 ==>
                var d := drain(intentions, removed2 - {g.cloneId});
                drain(old(intentions), removed) == Drained(e + d.events, d.rest, d.ok)
      ensures var e := EventsOf(hist.log[|old(hist.log)|..]);
              g.cloneId !in removed2 && PlansOfGoal(reg.byId, g.goalId) == [] ==>
                drain(old(intentions), removed) == Drained(e, intentions, false)
      ensures var e := EventsOf(hist.log[|old(hist.log)|..]);
              var plans := PlansOfGoal(reg.byId, g.goalId);
              g.cloneId !in removed2 && plans != [] ==>
                var plan := plans[|plans| - 1];
                var run := [Event(g.goalId, plan, PlanValue(g.cloneId, g.priority))] + ActionEvents(plan, ActionsOfPlan(reg.byId, plan), g.cloneId, act, beliefs.data);
                var d := drain(intentions, removed2);
                drain(old(intentions), removed) == Drained((e + run) + d.events, d.rest, d.ok)
    {
      var det := DetectConflicts();
      ghost var q := intentions;
      g := intentions[0];
      assert IsKind(reg.byId, g.goalId, GoalKind);
      QueueTail(intentions, reg.byId, rt.issued);
      intentions := intentions[1..];
      var gcs := reg.byId[g.goalId].conflicts;
      assert gcs == ConflictsOfGoal(reg.byId, g.goalId);
      removed2 := removed;
      LogNothing(hist.log);
      if g.cloneId !in removed {
        removed2 := ResolveHead(gcs, det, removed);
      }
      DrainHead(drain, reg.byId, conflicts, act, beliefs.data, q, removed, det, EventsOf(hist.log[|old(hist.log)|..]), removed2);
    }

    /** One iteration of the pass: the head is popped and its conflicts
        handled, then it is skipped or its plan runs.  `ok` is false when
        `goal.plans[0]` raises. */
    method PassStep(conflicts: seq<Id>, act: ActionFn, removed: set<Id>, ghost drain: (seq<Clone>, set<Id>) -> Drained)
      returns (removed2: set<Id>, ok: bool)
      requires Valid() && intentions != [] && conflicts == reg.byId[agent].conflicts
      requires Drains(drain, reg.byId, conflicts, act, beliefs.data)
      modifies this`intentions, hist, rt`now
      ensures GrowsFrom(old(hist.log), hist.log, old(rt.now), rt.stateDefaultId) && rt.now >= old(rt.now)
      ensures Valid() && |intentions| < |old(intentions)|
      ensures var e := EventsOf(hist.log[|old(hist.log)|..]);
              var d2 := drain(intentions, removed2);
              (ok ==> drain(old(intentions), removed) == Drained(e + d2.events, d2.rest, d2.ok)) &&
              (!ok ==> drain(old(intentions), removed) == Drained(e, intentions, false))
    {
      var g;
      g, removed2 := PopHead(conflicts, act, removed, drain);
      if g.cloneId in removed2 {
        removed2 := removed2 - {g.cloneId};
        return removed2, true;
      }
      var plans := reg.byId[g.goalId].plans;
      assert plans == PlansOfGoal(reg.byId, g.goalId);
      if plans == [] {
        return removed2, false;
      }
      ghost var l := hist.log;
      ghost var t := rt.now;
      ghost var e1 := EventsOf(hist.log[|old(hist.log)|..]);
      ghost var d0 := drain(old(intentions), removed);
      ghost var d := drain(intentions, removed2);
      var chosen, plan := SelectPlan(g, plans);
      ghost var run := [Event(g.goalId, plan, PlanValue(g.cloneId, g.priority))] + ActionEvents(plan, ActionsOfPlan(reg.byId, plan), g.cloneId, act, beliefs.data);
      assert d0 == Drained((e1 + run) + d.events, d.rest, d.ok);
      RunPlan(g, plan, act);
      assert EventsOf(hist.log[|l|..]) == run;
      LogGrows(old(hist.log), l, hist.log, old(rt.now), t, rt.stateDefaultId);
      Regroup(d0, e1, run, EventsOf(hist.log[|old(hist.log)|..]), d);
      ok := true;
    }

    /** One turn of the pass loop, with the bookkeeping that ties the
        records logged since the pass began (`log0`, at time `now0`) to the
        specification of the whole pass, `d0`. */
    method PassTurn(conflicts: seq<Id>, act: ActionFn, removed: set<Id>, ghost drain: (seq<Clone>, set<Id>) -> Drained,
                    ghost d0: Drained, ghost log0: seq<State>, ghost now0: int)
      returns (removed2: set<Id>, ok: bool)
      requires Valid() && intentions != [] && conflicts == reg.byId[agent].conflicts
      requires Drains(drain, reg.byId, conflicts, act, beliefs.data)
      requires GrowsFrom(log0, hist.log, now0, rt.stateDefaultId) && rt.now >= now0
      requires var d := drain(intentions, removed);
               d0 == Drained(EventsOf(hist.log[|log0|..]) + d.events, d.rest, d.ok)
      modifies this`intentions, hist, rt`now
      ensures Valid() && |intentions| < |old(intentions)|
      ensures GrowsFrom(log0, hist.log, now0, rt.stateDefaultId) && rt.now >= now0
      ensures ok ==> var d := drain(intentions, removed2);
                     d0 == Drained(EventsOf(hist.log[|log0|..]) + d.events, d.rest, d.ok)
      ensures !ok ==> d0 == Drained(EventsOf(hist.log[|log0|..]), intentions, false)
    {
      ghost var l := hist.log;
      ghost var t := rt.now;
      ghost var e := EventsOf(hist.log[|log0|..]);
      ghost var d := drain(intentions, removed);
      removed2, ok := PassStep(conflicts, act, removed, drain);
      LogGrows(log0, l, hist.log, now0, t, rt.stateDefaultId);
      PassShift(d0, e, d, EventsOf(hist.log[|l|..]), drain(intentions, removed2), ok, intentions);
    }

    /** `processIntentionsAsync()`: the whole pass over the queue.  It ends
        with an empty queue, or early when a goal without plans reaches
        `goal.plans[0]` (IndexError). */
    method ProcessIntentions(act: ActionFn) returns (ok: bool)
      requires Valid()
      modifies this`intentions, hist, rt`now
      ensures GrowsFrom(old(hist.log), hist.log, old(rt.now), rt.stateDefaultId) && rt.now >= old(rt.now)
      ensures Valid()
      ensures var d := Drain(old(intentions), {}, reg.byId, reg.byId[agent].conflicts, act, beliefs.data);
              EventsOf(hist.log[|old(hist.log)|..]) == d.events && intentions == d.rest && ok == d.ok
    {
      var conflicts := reg.byId[agent].conflicts;
      ghost var drain := DrainMap(reg.byId, conflicts, act, beliefs.data);
      DrainMapDrains(reg.byId, conflicts, act, beliefs.data);
      ghost var d0 := Drain(intentions, {}, reg.byId, conflicts, act, beliefs.data);
      var removed: set<Id> := {};
      LogNothing(hist.log);
      ok := true;
      while ok && intentions != []
        invariant Valid()
        invariant GrowsFrom(old(hist.log), hist.log, old(rt.now), rt.stateDefaultId) && rt.now >= old(rt.now)
        invariant ok ==> var d := drain(intentions, removed);
                         d0 == Drained(EventsOf(hist.log[|old(hist.log)|..]) + d.events, d.rest, d.ok)
        invariant !ok ==> d0 == Drained(EventsOf(hist.log[|old(hist.log)|..]), intentions, false)
        decreases |intentions|
      {
        removed, ok := PassTurn(conflicts, act, removed, drain, d0, old(hist.log), old(rt.now));
      }
    }
  }
}
