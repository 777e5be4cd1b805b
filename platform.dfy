/** The two platform services the engine calls: `uuid.uuid4().hex` for
    identifiers (`Entity.genId`) and `time.time()` for timestamps.  Both are
    modelled as oracles: an identifier is any non-empty string not handed out
    before, and a time is any integer not earlier than the previous reading. */
module Platform {

  /** Entity, clone and state identifiers; "" means "no target entity". */
  type Id = string

  /** An upper bound on the lengths of the strings of a finite set. */
  ghost function MaxLength(s: set<string>): (n: nat)
    ensures forall x :: x in s ==> |x| <= n
  {
    if s == {} then 0
    else
      var x :| x in s;
      var m := MaxLength(s - {x});
      if |x| > m then |x| else m
  }

  /** A non-empty string outside a finite set: a finite set of strings never
      exhausts the supply of fresh identifiers. */
  ghost function Unused(s: set<string>): (u: string)
    ensures u !in s && u != ""
  {
    seq(MaxLength(s) + 1, _ => 'x')
  }

  class Runtime {
    /** Every identifier handed out so far, explicit ones included. */
    var issued: set<Id>
    /** The last `time.time()` reading. */
    var now: int
    /** The default `id` of `State.__init__`: evaluated once, when the
        signature is evaluated, so every State built without an id shares it. */
    const stateDefaultId: Id

    constructor (start: int)
      ensures stateDefaultId != "" && issued == {stateDefaultId} && now == start
    {
      ghost var w := Unused({});
      var d: Id :| d != "" && d !in {};
      stateDefaultId := d;
      issued := {d};
      now := start;
    }

    /** `Entity.genId()`: a fresh identifier. */
    method GenId() returns (id: Id)
      modifies this`issued
      ensures id != "" && id !in old(issued)
      ensures issued == old(issued) + {id}
    {
      ghost var w := Unused(issued);
      assert w !in issued && w != "";
      id :| id !in issued && id != "";
      issued := issued + {id};
    }

    /** Records an identifier chosen by the caller, so that it is never
        generated later. */
    method Claim(id: Id)
      requires id != "" && id !in issued
      modifies this`issued
      ensures issued == old(issued) + {id}
    {
      issued := issued + {id};
    }

    /** `time.time()`: a reading not earlier than the previous one. */
    method Time() returns (t: int)
      modifies this`now
      ensures t >= old(now) && now == t
    {
      t :| t >= now;
      now := t;
    }
  }
}
