/** `DataContainer`: an agent's beliefs, its channel, or an environment
    snapshot, addressed by dotted paths; and the instrumented accessors that
    `createGet`/`createSet` hand to belief review, promotion functions and
    actions, which register an `Attribute` per path, link it to the accessing
    entity and record the access in the execution history. */
module Container {
  import opened Values
  import opened Platform
  import opened Registry
  import opened Events
  import opened History

  /** Every attribute a container created is registered, as an Attribute
      carrying the name it was created under. */
  ghost predicate AttrsRegistered(attrs: map<string, Id>, m: map<Id, Entity>)
  {
    forall k :: k in attrs ==> attrs[k] in m && m[attrs[k]].Attribute? && m[attrs[k]].name == k
  }

  lemma AttrsRegisteredKept(attrs: map<string, Id>, m: map<Id, Entity>, m2: map<Id, Entity>)
    requires AttrsRegistered(attrs, m) && LinksOnly(m, m2)
    ensures AttrsRegistered(attrs, m2)
  {
    forall k | k in attrs ensures m2[attrs[k]].Attribute? && m2[attrs[k]].name == k {
      assert Unlinked(m2[attrs[k]]) == Unlinked(m[attrs[k]]);
    }
  }

  class DataContainer {
    const name: string
    var data: Value
    /** `self.attrs`: the Attribute registered for each `name.path` seen. */
    var attrs: map<string, Id>

    constructor (name: string, data: Value)
      ensures this.name == name && this.data == data && attrs == map[]
    {
      this.name := name;
      this.data := data;
      attrs := map[];
    }

    ghost predicate Valid(reg: Registry)
      reads this, reg
    {
      AttrsRegistered(attrs, reg.byId)
    }

    /** `set(path, value)`: whether the data changed; TypeError when a
        non-empty path meets data that is not a dictionary. */
    method Set(path: string, v: Value) returns (r: Result<bool>)
      modifies this`data
      ensures SetData(old(data), path, v).Ok? ==> r == Ok(SetData(old(data), path, v).value.0) && data == SetData(old(data), path, v).value.1
      ensures SetData(old(data), path, v).TypeError? ==> r.TypeError? && data == old(data)
    {
      if path == "" {
        if data != v {
          data := v;
          return Ok(true);
        }
        return Ok(false);
      }
      if !data.Dict? {
        return TypeError;
      }
      var keys := Split(path);
      var found := Find(data, keys);
      if found == Some(v) {
        return Ok(false);
      }
      data := Dict(Put(data.entries, keys, v));
      return Ok(true);
    }

    /** `get(path)`: the loop that descends key by key. */
    method Get(path: string) returns (r: Result<Value>)
      ensures r == Read(data, Split(path))
    {
      var keys := Split(path);
      var d := data;
      var i := 0;
      while i < |keys|
        invariant 0 <= i <= |keys|
        invariant Read(data, keys) == Read(d, keys[i..])
        decreases |keys| - i
      {
        assert keys[i..][1..] == keys[i + 1..];
        var key := keys[i];
        match d
        case Null => return Ok(Bool(false));
        case Dict(m) =>
          if key !in m {
            return Ok(Bool(false));
          }
          d := m[key];
          i := i + 1;
        case List(items) =>
          if Str(key) in items {
            return TypeError;
          }
          return Ok(Bool(false));
        case Str(s) =>
          if Contains(s, key) {
            return TypeError;
          }
          return Ok(Bool(false));
        case Int(_) => return TypeError;
        case Bool(_) => return TypeError;
      }
      assert keys[i..] == [];
      r := Ok(d);
    }

    /** The attribute for `name.path`, registered the first time the path is
        accessed. */
    method AttributeFor(reg: Registry, path: string) returns (aid: Id)
      requires reg.Valid() && Valid(reg)
      modifies this`attrs, reg, reg.rt`issued
      ensures reg.Valid() && Valid(reg) && LinksOnly(old(reg.byId), reg.byId)
      ensures IsKind(reg.byId, aid, AttributeKind) && reg.byId[aid].name == name + "." + path
      ensures attrs == old(attrs)[name + "." + path := aid]
      ensures reg.rt.issued >= old(reg.rt.issued)
      ensures name + "." + path in old(attrs) ==> aid == old(attrs)[name + "." + path] && reg.byId == old(reg.byId)
      ensures name + "." + path !in old(attrs) ==> aid !in old(reg.byId)
    {
      var attrName := name + "." + path;
      if attrName in attrs {
        aid := attrs[attrName];
      } else {
        ghost var m := reg.byId;
        aid := reg.NewAttribute(attrName, "");
        AttrsRegisteredKept(attrs, m, reg.byId);
        attrs := attrs[attrName := aid];
      }
    }

    /** The linking part of both accessors: the attribute of `name.path`,
        registered if new, and linked to `e`. */
    method LinkPath(reg: Registry, e: Id, path: string) returns (aid: Id)
      requires reg.Valid() && Valid(reg)
      requires e in reg.byId && HasAttrs(reg.byId[e])
      modifies this`attrs, reg, reg.rt`issued
      ensures reg.Valid() && Valid(reg) && LinksOnly(old(reg.byId), reg.byId)
      ensures attrs == old(attrs)[name + "." + path := aid]
      ensures name + "." + path in old(attrs) ==> aid == old(attrs)[name + "." + path]
      ensures aid in AttrsOf(reg.byId[e]) && e in RelationsOf(reg.byId[aid])
      ensures reg.rt.issued >= old(reg.rt.issued)
    {
      ghost var m0 := reg.byId;
      aid := AttributeFor(reg, path);
      ghost var m1 := reg.byId;
      LinksOnlyExtends(m0, m1);
      reg.Link(e, aid);
      AttrsRegisteredKept(attrs, m1, reg.byId);
      LinksOnlyTransitive(m0, m1, reg.byId);
    }

    /** The getter of `createGet(hist, toId, lastVal)`, called with `path`:
        link the path's attribute to `toId`, read the value, and record a
        state from the attribute to `toId` when the value differs from
        `lastVal`.  The attribute and its link exist even when the read then
        raises TypeError. */
    method TrackedGet(reg: Registry, hist: InMemoryExecutionHistory, toId: Id, lastVal: Value, path: string)
      returns (r: Result<Value>)
      requires reg.Valid() && Valid(reg) && hist.Valid()
      requires toId in reg.byId && HasAttrs(reg.byId[toId])
      modifies this`attrs, reg, reg.rt, hist
      ensures reg.Valid() && Valid(reg) && hist.Valid() && LinksOnly(old(reg.byId), reg.byId)
      ensures r == Read(data, Split(path))
      ensures name + "." + path in attrs && attrs[name + "." + path] in AttrsOf(reg.byId[toId])
      ensures toId in RelationsOf(reg.byId[attrs[name + "." + path]])
      ensures attrs == old(attrs)[name + "." + path := attrs[name + "." + path]]
      ensures name + "." + path in old(attrs) ==> attrs == old(attrs)
      ensures reg.rt.issued >= old(reg.rt.issued) && reg.rt.now >= old(reg.rt.now)
      ensures GrowsFrom(old(hist.log), hist.log, old(reg.rt.now), reg.rt.stateDefaultId)
      ensures EventsOf(hist.log[|old(hist.log)|..]) ==
        if r.Ok? && r.value != lastVal then [Event(attrs[name + "." + path], toId, r.value)] else []
    {
      var aid := LinkPath(reg, toId, path);
      r := Get(path);
      if r.Ok? && r.value != lastVal {
        Record(hist, reg.rt, aid, toId, r.value);
      } else {
        assert hist.log[|old(hist.log)|..] == [];
      }
    }

    /** The setter of `createSet(hist, fromId)`, called with `(path, value)`:
        when the write changes the data, link the path's attribute to
        `fromId` and record a state from `fromId` to the attribute. */
    method TrackedSet(reg: Registry, hist: InMemoryExecutionHistory, fromId: Id, path: string, v: Value)
      returns (r: Result<bool>)
      requires reg.Valid() && Valid(reg) && hist.Valid()
      requires fromId in reg.byId && HasAttrs(reg.byId[fromId])
      modifies this`data, this`attrs, reg, reg.rt, hist
      ensures reg.Valid() && Valid(reg) && hist.Valid() && LinksOnly(old(reg.byId), reg.byId)
      ensures SetData(old(data), path, v).Ok? ==> r == Ok(SetData(old(data), path, v).value.0) && data == SetData(old(data), path, v).value.1
      ensures SetData(old(data), path, v).TypeError? ==> r.TypeError? && data == old(data)
      ensures reg.rt.issued >= old(reg.rt.issued) && reg.rt.now >= old(reg.rt.now)
      ensures r == Ok(true) ==>
        && name + "." + path in attrs && attrs[name + "." + path] in AttrsOf(reg.byId[fromId])
        && fromId in RelationsOf(reg.byId[attrs[name + "." + path]])
        && attrs == old(attrs)[name + "." + path := attrs[name + "." + path]]
        && (name + "." + path in old(attrs) ==> attrs == old(attrs))
      ensures r != Ok(true) ==> attrs == old(attrs) && reg.byId == old(reg.byId)
      ensures GrowsFrom(old(hist.log), hist.log, old(reg.rt.now), reg.rt.stateDefaultId)
      ensures EventsOf(hist.log[|old(hist.log)|..]) ==
        if r == Ok(true) then [Event(fromId, attrs[name + "." + path], v)] else []
    {
      r := Set(path, v);
      if r == Ok(true) {
        NoteWrite(reg, hist, fromId, path, v);
      } else {
        assert hist.log[|old(hist.log)|..] == [];
      }
    }

    /** What the setter does after a write that changed the data: link the
        path's attribute to `fromId` and record a state from `fromId` to it. */
    method NoteWrite(reg: Registry, hist: InMemoryExecutionHistory, fromId: Id, path: string, v: Value)
      requires reg.Valid() && Valid(reg) && hist.Valid()
      requires fromId in reg.byId && HasAttrs(reg.byId[fromId])
      modifies this`attrs, reg, reg.rt, hist
      ensures reg.Valid() && Valid(reg) && hist.Valid() && LinksOnly(old(reg.byId), reg.byId)
      ensures reg.rt.issued >= old(reg.rt.issued) && reg.rt.now >= old(reg.rt.now)
      ensures name + "." + path in attrs && attrs[name + "." + path] in AttrsOf(reg.byId[fromId])
      ensures fromId in RelationsOf(reg.byId[attrs[name + "." + path]])
      ensures attrs == old(attrs)[name + "." + path := attrs[name + "." + path]]
      ensures name + "." + path in old(attrs) ==> attrs == old(attrs)
      ensures GrowsFrom(old(hist.log), hist.log, old(reg.rt.now), reg.rt.stateDefaultId)
      ensures EventsOf(hist.log[|old(hist.log)|..]) == [Event(fromId, attrs[name + "." + path], v)]
    {
      var aid := LinkPath(reg, fromId, path);
      Record(hist, reg.rt, fromId, aid, v);
    }
  }
}
