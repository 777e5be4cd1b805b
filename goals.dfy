/** Goal clones (the entries of the intentions queue), their promotion, and
    conflict detection over the queue. */
module Goals {
  import opened Values
  import opened Platform
  import opened Registry
  import opened Insort

  /** A copy of a goal made by `getClone()`: it keeps the goal's id, gets a
      fresh `cloneId`, and carries its own priority and status. */
  datatype Clone = Clone(goalId: Id, cloneId: Id, priority: int, status: seq<string>)

  function Priority(c: Clone): int
  {
    c.priority
  }

  /** `Goal.__lt__`, reversed: a higher priority sorts first. */
  predicate Less(a: Clone, b: Clone)
  {
    a.priority > b.priority
  }

  /** The order `bisect.insort` keeps on the queue (no clone is `<` one
      before it) is the descending order of priority. */
  lemma QueueOrderIsDescendingPriority(q: seq<Clone>)
    ensures SortedDesc(q, Priority) <==> forall i, j :: 0 <= i < j < |q| ==> !Less(q[j], q[i])
  {
  }

  /** The status list after `promote(status, _)`: the name is appended unless
      already present. */
  function AddStatus(st: seq<string>, x: string): (r: seq<string>)
    ensures x in r && forall y :: y in r <==> y in st || y == x
    ensures NoDup(st) ==> NoDup(r)
    ensures |r| == if x in st then |st| else |st| + 1
  {
    if x in st then st else st + [x]
  }

  /** `promote(status, priority)` */
  function Promote(c: Clone, status: string, priority: int): (r: Clone)
    ensures r.goalId == c.goalId && r.cloneId == c.cloneId
    ensures r.priority == priority && r.status == AddStatus(c.status, status)
  {
    c.(status := AddStatus(c.status, status), priority := priority)
  }

  /** Promoting twice with the same name and priority is promoting once. */
  lemma PromoteIdempotent(c: Clone, status: string, priority: int)
    ensures Promote(Promote(c, status, priority), status, priority) == Promote(c, status, priority)
  {
  }

  /** `isInFinalState()`, for a goal with `promotions` target promotions. */
  predicate IsInFinalState(c: Clone, promotions: nat)
  {
    promotions == |c.status|
  }

  /** `getClone()`: a copy in the initial state (priority 0, empty status)
      with a fresh `cloneId`. */
  method GetClone(rt: Runtime, goalId: Id) returns (c: Clone)
    modifies rt`issued
    ensures c.goalId == goalId && c.priority == 0 && c.status == []
    ensures c.cloneId !in old(rt.issued) && rt.issued == old(rt.issued) + {c.cloneId}
  {
    var cid := rt.GenId();
    c := Clone(goalId, cid, 0, []);
  }

  /** A promotion function, as what one call does: given the promotion's id,
      the clone's current priority and the beliefs, the belief paths it reads
      (in order) and the priority it returns (`None` for no promotion). */
  type PromotionFn = (Id, int, Value) -> (seq<string>, Option<int>)

  /** None of the paths raises when read from `b`. */
  predicate ReadsOk(b: Value, paths: seq<string>)
  {
    forall p :: p in paths ==> Read(b, Split(p)).Ok?
  }

  /** The promotion loop of one clone in `deliberateAsync`: call each target
      promotion in order with the current priority; stop at the first that
      returns `None`; a read that raises aborts the deliberation. */
  function Climb(c: Clone, prs: seq<Id>, names: seq<string>, f: PromotionFn, b: Value): Result<Clone>
    requires |prs| == |names|
    decreases |prs|
  {
    if prs == [] then Ok(c)
    else
      var call := f(prs[0], c.priority, b);
      if !ReadsOk(b, call.0) then TypeError
      else if call.1.None? then Ok(c)
      else Climb(Promote(c, names[0], call.1.value), prs[1..], names[1..], f, b)
  }

  /** How many promotions of the loop fired before it stopped. */
  function Fired(c: Clone, prs: seq<Id>, names: seq<string>, f: PromotionFn, b: Value): (k: nat)
    requires |prs| == |names|
    ensures k <= |prs|
    decreases |prs|
  {
    if prs == [] then 0
    else
      var call := f(prs[0], c.priority, b);
      if !ReadsOk(b, call.0) || call.1.None? then 0
      else 1 + Fired(Promote(c, names[0], call.1.value), prs[1..], names[1..], f, b)
  }

  /** The status after appending each of `ns` in turn. */
  function AddAll(st: seq<string>, ns: seq<string>): seq<string>
    decreases |ns|
  {
    if ns == [] then st else AddAll(AddStatus(st, ns[0]), ns[1..])
  }

  lemma {:induction false} AddAllBound(st: seq<string>, ns: seq<string>)
    ensures |AddAll(st, ns)| <= |st| + |ns|
    decreases |ns|
  {
    if ns != [] {
      AddAllBound(AddStatus(st, ns[0]), ns[1..]);
    }
  }

  /** Appending distinct names keeps every one of them: the status grows by
      exactly `|ns|` precisely when no name repeats. */
  lemma {:induction false} AddAllLength(st: seq<string>, ns: seq<string>)
    requires NoDup(st)
    ensures |AddAll(st, ns)| == |st| + |ns| <==> NoDup(st + ns)
    decreases |ns|
  {
    if ns != [] {
      var n := ns[0];
      assert st + ns == (st + [n]) + ns[1..];
      if n in st {
        AddAllBound(st, ns[1..]);
        var i :| 0 <= i < |st| && st[i] == n;
        assert (st + ns)[i] == (st + ns)[|st|];
      } else {
        AddAllLength(st + [n], ns[1..]);
      }
    } else {
      assert st + ns == st;
    }
  }

  /** The loop keeps the clone's identity, and its status is the promotion
      names of the fired promotions added in order. */
  lemma {:induction false} ClimbStatus(c: Clone, prs: seq<Id>, names: seq<string>, f: PromotionFn, b: Value)
    requires |prs| == |names|
    requires Climb(c, prs, names, f, b).Ok?
    ensures var r := Climb(c, prs, names, f, b).value;
            r.goalId == c.goalId && r.cloneId == c.cloneId &&
            r.status == AddAll(c.status, names[..Fired(c, prs, names, f, b)])
    decreases |prs|
  {
    var k := Fired(c, prs, names, f, b);
    if prs != [] {
      var call := f(prs[0], c.priority, b);
      if call.1.Some? {
        var c1 := Promote(c, names[0], call.1.value);
        ClimbStatus(c1, prs[1..], names[1..], f, b);
        assert names[..k] == [names[0]] + names[1..][..k - 1];
      }
    }
    if k == 0 {
      assert names[..k] == [];
    }
  }

  /** A fresh clone reaches its final state exactly when every target
      promotion fired and no two of them have the same name (`promote` does
      not repeat a name in the status). */
  lemma FinalIff(c: Clone, prs: seq<Id>, names: seq<string>, f: PromotionFn, b: Value)
    requires |prs| == |names| && c.status == []
    requires Climb(c, prs, names, f, b).Ok?
    ensures IsInFinalState(Climb(c, prs, names, f, b).value, |prs|) <==>
            Fired(c, prs, names, f, b) == |prs| && NoDup(names)
  {
    var k := Fired(c, prs, names, f, b);
    var r := Climb(c, prs, names, f, b).value;
    ClimbStatus(c, prs, names, f, b);
    assert r.status == AddAll([], names[..k]);
    if k == |prs| {
      assert names[..k] == names;
      AddAllLength([], names);
      assert [] + names == names;
    } else {
      AddAllBound([], names[..k]);
    }
  }

  /** How a conflict is settled: the clone kept and the clones to drop
      (a set in the source; here in queue order, without repeats). */
  datatype Resolution = Resolution(chosen: Id, toRemove: seq<Id>)

  /** The queued clones of goals named by conflict `c` (`c.goalsIds`), in
      queue order. */
  function Members(m: map<Id, Entity>, c: Id, q: seq<Clone>): (r: seq<Id>)
    ensures |r| <= |q|
  {
    if q == [] then []
    else
      var rest := Members(m, c, q[..|q| - 1]);
      if c in m && m[c].Conflict? && q[|q| - 1].goalId in m[c].goals then rest + [q[|q| - 1].cloneId] else rest
  }

  /** `s` with repeated elements dropped, first occurrences kept. */
  function Dedup(s: seq<Id>): (r: seq<Id>)
    ensures forall x :: x in r <==> x in s
    ensures NoDup(r)
  {
    if s == [] then []
    else
      var d := Dedup(s[..|s| - 1]);
      if s[|s| - 1] in d then d else d + [s[|s| - 1]]
  }

  /** What `_detectConflicts` reports: a conflict appears when at least two
      queued clones belong to its goals, the first of them is kept and the
      others are dropped. */
  function Detect(m: map<Id, Entity>, conflicts: seq<Id>, q: seq<Clone>): map<Id, Resolution>
  {
    if conflicts == [] then map[]
    else
      var res := Detect(m, conflicts[..|conflicts| - 1], q);
      var c := conflicts[|conflicts| - 1];
      var ms := Members(m, c, q);
      if |ms| >= 2 then res[c := Resolution(ms[0], Dedup(ms[1..]))] else res
  }

  /** A member of a conflict is the clone id of a queued clone whose goal
      the conflict names. */
  lemma {:induction false} MembersIn(m: map<Id, Entity>, c: Id, q: seq<Clone>, x: Id)
    requires c in m && m[c].Conflict?
    ensures x in Members(m, c, q) <==> exists j :: 0 <= j < |q| && q[j].cloneId == x && q[j].goalId in m[c].goals
    decreases |q|
  {
    if q != [] {
      var n := |q| - 1;
      MembersIn(m, c, q[..n], x);
      if x in Members(m, c, q[..n]) {
        var j :| 0 <= j < n && q[..n][j].cloneId == x && q[..n][j].goalId in m[c].goals;
        assert q[j] == q[..n][j];
      }
      if exists j :: 0 <= j < |q| && q[j].cloneId == x && q[j].goalId in m[c].goals {
        var j :| 0 <= j < |q| && q[j].cloneId == x && q[j].goalId in m[c].goals;
        if j < n {
          assert q[..n][j] == q[j];
        }
      }
    }
  }

  /** The members keep the queue order: when the queue is in descending
      priority order, so are the members' priorities, and the chosen clone
      comes first. */
  lemma {:induction false} MembersIndex(m: map<Id, Entity>, c: Id, q: seq<Clone>, k: nat)
    requires c in m && m[c].Conflict? && k < |Members(m, c, q)|
    ensures exists j :: 0 <= j < |q| && q[j].cloneId == Members(m, c, q)[k] && q[j].goalId in m[c].goals &&
                        |Members(m, c, q[..j])| == k
    decreases |q|
  {
    var n := |q| - 1;
    var rest := Members(m, c, q[..n]);
    if k < |rest| {
      MembersIndex(m, c, q[..n], k);
      var j :| 0 <= j < n && q[..n][j].cloneId == rest[k] && q[..n][j].goalId in m[c].goals && |Members(m, c, q[..n][..j])| == k;
      assert q[..n][..j] == q[..j];
      assert q[j] == q[..n][j];
    } else {
      assert q[..n] == q[..|q| - 1];
    }
  }

  /** The first queued clone of a conflicting goal is exactly the chosen one,
      whatever comes after it. */
  lemma {:induction false} MembersHead(m: map<Id, Entity>, c: Id, q: seq<Clone>)
    requires c in m && m[c].Conflict? && q != [] && q[0].goalId in m[c].goals
    ensures Members(m, c, q) != [] && Members(m, c, q)[0] == q[0].cloneId
    decreases |q|
  {
    if |q| > 1 {
      MembersHead(m, c, q[..|q| - 1]);
    }
  }

  lemma {:induction false} DetectEntry(m: map<Id, Entity>, conflicts: seq<Id>, q: seq<Clone>, c: Id)
    ensures c in Detect(m, conflicts, q) <==> c in conflicts && |Members(m, c, q)| >= 2
    ensures c in Detect(m, conflicts, q) ==>
      Detect(m, conflicts, q)[c] == Resolution(Members(m, c, q)[0], Dedup(Members(m, c, q)[1..]))
    decreases |conflicts|
  {
    if conflicts != [] {
      DetectEntry(m, conflicts[..|conflicts| - 1], q, c);
      assert conflicts == conflicts[..|conflicts| - 1] + [conflicts[|conflicts| - 1]];
    }
  }

  ghost predicate UniqueClones(q: seq<Clone>)
  {
    forall i, j :: 0 <= i < j < |q| ==> q[i].cloneId != q[j].cloneId
  }

  /** The queue head is never dropped by a conflict that names its goal: it
      is that conflict's chosen clone (clone ids are unique). */
  lemma HeadChosen(m: map<Id, Entity>, conflicts: seq<Id>, q: seq<Clone>, c: Id)
    requires c in m && m[c].Conflict? && q != [] && q[0].goalId in m[c].goals
    requires UniqueClones(q)
    requires c in Detect(m, conflicts, q)
    ensures Detect(m, conflicts, q)[c].chosen == q[0].cloneId
    ensures q[0].cloneId !in Detect(m, conflicts, q)[c].toRemove
  {
    DetectEntry(m, conflicts, q, c);
    MembersHead(m, c, q);
    var ms := Members(m, c, q);
    if q[0].cloneId in ms[1..] {
      var k :| 0 <= k < |ms[1..]| && ms[1..][k] == q[0].cloneId;
      MembersIndex(m, c, q, k + 1);
    }
  }

  /** In a queue kept in descending priority order, the chosen clone of a
      detected conflict has at least the priority of every clone it drops,
      and every dropped clone is a queued clone of a conflicting goal. */
  lemma ChosenOutranks(m: map<Id, Entity>, conflicts: seq<Id>, q: seq<Clone>, c: Id, x: Id)
    requires c in m && m[c].Conflict? && SortedDesc(q, Priority) && UniqueClones(q)
    requires c in Detect(m, conflicts, q) && x in Detect(m, conflicts, q)[c].toRemove
    ensures exists i, j :: 0 <= i < j < |q| && q[i].cloneId == Detect(m, conflicts, q)[c].chosen &&
              q[j].cloneId == x && q[j].goalId in m[c].goals && q[i].priority >= q[j].priority
  {
    DetectEntry(m, conflicts, q, c);
    var ms := Members(m, c, q);
    var k :| 0 <= k < |ms[1..]| && ms[1..][k] == x;
    MembersBefore(m, c, q, k + 1);
    var i, j :| 0 <= i < j < |q| && q[i].cloneId == ms[0] && q[j].cloneId == ms[k + 1] && q[j].goalId in m[c].goals;
    assert q[i].priority >= q[j].priority;
  }

  /** A later member of a conflict comes from a later queue position than
      its first member. */
  lemma MembersBefore(m: map<Id, Entity>, c: Id, q: seq<Clone>, k: nat)
    requires c in m && m[c].Conflict? && 0 < k < |Members(m, c, q)|
    ensures exists i, j :: 0 <= i < j < |q| && q[i].cloneId == Members(m, c, q)[0] &&
              q[j].cloneId == Members(m, c, q)[k] && q[j].goalId in m[c].goals
  {
    MembersIndex(m, c, q, 0);
    var i :| 0 <= i < |q| && q[i].cloneId == Members(m, c, q)[0] && |Members(m, c, q[..i])| == 0;
    MembersIndex(m, c, q, k);
    var j :| 0 <= j < |q| && q[j].cloneId == Members(m, c, q)[k] && q[j].goalId in m[c].goals && |Members(m, c, q[..j])| == k;
    if j <= i {
      MembersPrefixGrow(m, c, q, j, i);
    }
  }

  lemma {:induction false} MembersPrefixGrow(m: map<Id, Entity>, c: Id, q: seq<Clone>, a: nat, b: nat)
    requires a <= b <= |q|
    ensures |Members(m, c, q[..a])| <= |Members(m, c, q[..b])|
    decreases b - a
  {
    if a < b {
      MembersPrefixGrow(m, c, q, a, b - 1);
      assert q[..b][..b - 1] == q[..b - 1];
    }
  }
}
