/** `State`: one recorded change of state, from an entity (or attribute) to
    the entity that receives it. */
module Events {
  import opened Values
  import opened Platform
  import opened Insort

  /** `time` is the first `time.time()` reading the recorder takes and
      `activationTime` the second.  `toId` is "" when the change is not
      propagated to a target entity. */
  datatype State = State(fromId: Id, toId: Id, time: int, activationTime: int, value: Value, id: Id)

  function Time(s: State): int
  {
    s.time
  }

  /** `State.__lt__`, reversed: a later state sorts first. */
  predicate Less(a: State, b: State)
  {
    a.time > b.time
  }

  /** The order `bisect` keeps (no element is `<` one before it) is the
      descending order of `time`. */
  lemma BisectOrderIsDescendingTime(s: seq<State>)
    ensures SortedDesc(s, Time) <==> forall i, j :: 0 <= i < j < |s| ==> !Less(s[j], s[i])
  {
  }

  /** What stays of a state once its timestamps and id are dropped: the part
      the engine determines. */
  datatype Event = Event(fromId: Id, toId: Id, value: Value)

  function EventOf(s: State): Event
  {
    Event(s.fromId, s.toId, s.value)
  }

  function EventsOf(ss: seq<State>): (es: seq<Event>)
    ensures |es| == |ss|
    ensures forall i :: 0 <= i < |ss| ==> es[i] == EventOf(ss[i])
  {
    if ss == [] then [] else EventsOf(ss[..|ss| - 1]) + [EventOf(ss[|ss| - 1])]
  }

  lemma EventsAppend(a: seq<State>, b: seq<State>)
    ensures EventsOf(a + b) == EventsOf(a) + EventsOf(b)
  {
    assert |EventsOf(a + b)| == |EventsOf(a) + EventsOf(b)|;
  }
}
