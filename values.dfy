/** Values held by a DataContainer: nested dictionaries addressed by dotted
    paths such as "resources.battery", and the pure meaning of its `get` and
    `set`. */
module Values {

  datatype Option<T> = None | Some(value: T)

  /** The outcome of an operation that Python may abort with a TypeError. */
  datatype Result<T> = Ok(value: T) | TypeError

  /** A Python value as it appears in beliefs, environment snapshots and
      event payloads.  Equality of this datatype stands for DeepDiff's
      "no difference". */
  datatype Value =
    | Null
    | Bool(b: bool)
    | Int(i: int)
    | Str(s: string)
    | List(items: seq<Value>)
    | Dict(entries: map<string, Value>)

  /** `path.split('.')`: never empty, and no piece contains a dot. */
  function Split(path: string): (keys: seq<string>)
    ensures |keys| >= 1
    ensures forall k :: k in keys ==> '.' !in k
  {
    if path == [] then [""]
    else
      var rest := Split(path[1..]);
      if path[0] == '.' then [""] + rest
      else [[path[0]] + rest[0]] + rest[1..]
  }

  /** `'.'.join(keys)` */
  function Join(keys: seq<string>): string
    requires |keys| >= 1
  {
    if |keys| == 1 then keys[0] else keys[0] + "." + Join(keys[1..])
  }

  /** Splitting a path and joining the pieces again gives the path back. */
  lemma {:induction false} JoinSplit(path: string)
    ensures Join(Split(path)) == path
  {
    if path != [] {
      var rest := Split(path[1..]);
      JoinSplit(path[1..]);
      if path[0] == '.' {
        assert Split(path) == [""] + rest;
        assert path == "." + path[1..];
      } else {
        var keys := Split(path);
        assert keys == [[path[0]] + rest[0]] + rest[1..];
        if |rest| == 1 {
          assert Join(keys) == [path[0]] + rest[0];
          assert Join(rest) == rest[0];
        } else {
          assert keys[1..] == rest[1..];
          assert Join(keys) == [path[0]] + rest[0] + "." + Join(rest[1..]);
          assert Join(rest) == rest[0] + "." + Join(rest[1..]);
        }
        assert path == [path[0]] + path[1..];
      }
    }
  }

  /** A leading character other than a dot joins the first piece. */
  lemma SplitCons(c: char, t: string)
    requires c != '.'
    ensures Split([c] + t) == [[c] + Split(t)[0]] + Split(t)[1..]
  {
    assert ([c] + t)[1..] == t;
  }

  lemma {:induction false} SplitPrefix(a: string, s: string)
    requires '.' !in a
    ensures Split(a + s) == [a + Split(s)[0]] + Split(s)[1..]
  {
    var S := Split(s);
    if a != [] {
      var t := a[1..] + s;
      assert a + s == [a[0]] + t;
      SplitPrefix(a[1..], s);
      SplitCons(a[0], t);
      assert [a[0]] + (a[1..] + S[0]) == a + S[0];
    } else {
      assert a + s == s;
      assert a + S[0] == S[0];
    }
  }

  /** Joining dot-free pieces and splitting again gives the pieces back. */
  lemma {:induction false} SplitJoin(keys: seq<string>)
    requires |keys| >= 1
    requires forall k :: k in keys ==> '.' !in k
    ensures Split(Join(keys)) == keys
  {
    if |keys| == 1 {
      SplitPrefix(keys[0], "");
      assert keys[0] + "" == keys[0];
    } else {
      var tail := Join(keys[1..]);
      assert keys[1..][0] == keys[1];
      SplitJoin(keys[1..]);
      assert keys[0] + "." + tail == keys[0] + ("." + tail);
      SplitPrefix(keys[0], "." + tail);
      assert ("." + tail)[0] == '.' && ("." + tail)[1..] == tail;
      assert Split("." + tail) == [""] + keys[1..];
      assert keys[0] + "" == keys[0];
      assert keys == [keys[0]] + keys[1..];
    }
  }

  /** The value stored under `keys`, when every step is a dictionary that
      holds the next key. */
  function Find(d: Value, keys: seq<string>): Option<Value>
    decreases keys
  {
    if keys == [] then Some(d)
    else if d.Dict? && keys[0] in d.entries then Find(d.entries[keys[0]], keys[1..])
    else None
  }

  /** What `DataContainer.get` returns: the stored value, or False when the
      path is absent. */
  function Lookup(d: Value, keys: seq<string>): Value
  {
    match Find(d, keys)
    case Some(v) => v
    case None => Bool(false)
  }

  /** The dictionary after `set` writes `v` under a non-empty path: missing or
      non-dictionary intermediates become `{}` on the way down. */
  function Put(m: map<string, Value>, keys: seq<string>, v: Value): map<string, Value>
    requires |keys| >= 1
    decreases |keys|
  {
    if |keys| == 1 then m[keys[0] := v]
    else
      var child := if keys[0] in m && m[keys[0]].Dict? then m[keys[0]].entries else map[];
      m[keys[0] := Dict(Put(child, keys[1..], v))]
  }

  /** Reading back a path just written gives the written value. */
  lemma {:induction false} FindPut(m: map<string, Value>, keys: seq<string>, v: Value)
    requires |keys| >= 1
    decreases |keys|
    ensures Find(Dict(Put(m, keys, v)), keys) == Some(v)
    ensures Lookup(Dict(Put(m, keys, v)), keys) == v
  {
    if |keys| > 1 {
      var child := if keys[0] in m && m[keys[0]].Dict? then m[keys[0]].entries else map[];
      FindPut(child, keys[1..], v);
    }
  }

  /** Writing the value a path already holds changes nothing. */
  lemma {:induction false} PutExisting(m: map<string, Value>, keys: seq<string>, v: Value)
    requires |keys| >= 1
    decreases |keys|
    requires Find(Dict(m), keys) == Some(v)
    ensures Put(m, keys, v) == m
  {
    if |keys| > 1 {
      PutExisting(m[keys[0]].entries, keys[1..], v);
    }
  }

  /** A path that leaves the written path at index `i` (same first `i` keys,
      a different key at `i`) reads the same before and after the write:
      sibling keys are untouched. */
  lemma {:induction false} PutFrame(m: map<string, Value>, keys: seq<string>, v: Value, q: seq<string>, i: nat)
    requires |keys| >= 1
    decreases |keys|
    requires i < |keys| && i < |q|
    requires keys[..i] == q[..i] && keys[i] != q[i]
    ensures Find(Dict(Put(m, keys, v)), q) == Find(Dict(m), q)
  {
    if i > 0 {
      assert q[0] == keys[0] by { assert keys[..i][0] == q[..i][0]; }
      var child := if keys[0] in m && m[keys[0]].Dict? then m[keys[0]].entries else map[];
      assert keys[1..][..i - 1] == keys[..i][1..];
      assert q[1..][..i - 1] == q[..i][1..];
      PutFrame(child, keys[1..], v, q[1..], i - 1);
      if !(keys[0] in m && m[keys[0]].Dict?) {
        EmptyFind(q[1..]);
      }
    }
  }

  lemma EmptyFind(q: seq<string>)
    requires |q| >= 1
    ensures Find(Dict(map[]), q) == None
  {
  }

  /** The shape `set` leaves behind: no value, or a value that is not a
      dictionary. */
  predicate NoDictAt(o: Option<Value>)
  {
    o.None? || !o.value.Dict?
  }

  /** An intermediate on the written path that was missing or was not a
      dictionary is replaced by a fresh dictionary that holds only the rest of
      the path. */
  lemma {:induction false} PutReplacesNonDict(m: map<string, Value>, keys: seq<string>, v: Value, i: nat)
    requires 0 < i < |keys|
    requires NoDictAt(Find(Dict(m), keys[..i]))
    ensures Find(Dict(Put(m, keys, v)), keys[..i]) == Some(Dict(Put(map[], keys[i..], v)))
    decreases i
  {
    var child := if keys[0] in m && m[keys[0]].Dict? then m[keys[0]].entries else map[];
    var inner := Put(child, keys[1..], v);
    assert Put(m, keys, v)[keys[0]] == Dict(inner);
    var pre := keys[..i];
    assert pre[0] == keys[0];
    assert pre[1..] == keys[1..][..i - 1];
    assert Find(Dict(Put(m, keys, v)), pre) == Find(Dict(inner), keys[1..][..i - 1]);
    if i == 1 {
      assert pre == [keys[0]];
      assert keys[1..] == keys[i..];
      assert child == map[] by {
        if keys[0] in m {
          assert Find(Dict(m), pre) == Find(m[keys[0]], []);
        }
      }
    } else {
      assert keys[1..][i - 1..] == keys[i..];
      if keys[0] in m && m[keys[0]].Dict? {
        assert Find(Dict(m), pre) == Find(Dict(child), keys[1..][..i - 1]);
      } else {
        EmptyFind(keys[1..][..i - 1]);
      }
      PutReplacesNonDict(child, keys[1..], v, i - 1);
    }
  }

  /** `t` is a prefix of `s`. */
  predicate IsPrefix(t: string, s: string)
  {
    |t| <= |s| && s[..|t|] == t
  }

  /** Python's `t in s` on strings: `t` occurs in `s` (the empty string
      occurs everywhere). */
  predicate Contains(s: string, t: string)
    decreases |s|
  {
    IsPrefix(t, s) || (|s| > 0 && Contains(s[1..], t))
  }

  /** Prepending text keeps every occurrence. */
  lemma {:induction false} ContainsAfter(p: string, s: string, t: string)
    requires Contains(s, t)
    ensures Contains(p + s, t)
    decreases |p|
  {
    if p != [] {
      assert (p + s)[1..] == p[1..] + s;
      ContainsAfter(p[1..], s, t);
    } else {
      assert p + s == s;
    }
  }

  /** What the loop of `DataContainer.get` does: descend through
      dictionaries; a missing key or a `None` gives False; indexing any other
      value by a string raises TypeError (after `key in d` has succeeded for
      a list or a string, or at once for a number or a boolean). */
  function Read(d: Value, keys: seq<string>): (r: Result<Value>)
    decreases keys
  {
    if keys == [] then Ok(d)
    else
      match d
      case Null => Ok(Bool(false))
      case Dict(m) => if keys[0] in m then Read(m[keys[0]], keys[1..]) else Ok(Bool(false))
      case List(items) => if Str(keys[0]) in items then TypeError else Ok(Bool(false))
      case Str(s) => if Contains(s, keys[0]) then TypeError else Ok(Bool(false))
      case Int(_) => TypeError
      case Bool(_) => TypeError
  }

  /** Whenever `get` returns, it returns what `Lookup` describes: the stored
      value, or False for an absent path; and it only raises on a path that
      `Find` does not reach. */
  lemma {:induction false} ReadIsLookup(d: Value, keys: seq<string>)
    ensures Read(d, keys).Ok? ==> Read(d, keys) == Ok(Lookup(d, keys))
    ensures Read(d, keys).TypeError? ==> Find(d, keys).None?
    ensures Find(d, keys).Some? ==> Read(d, keys) == Ok(Find(d, keys).value)
    decreases keys
  {
    if keys != [] && d.Dict? && keys[0] in d.entries {
      ReadIsLookup(d.entries[keys[0]], keys[1..]);
    }
  }

  /** `DataContainer.set` on the data `d`: the change flag and the new data,
      or TypeError when a non-empty path meets data that is not a
      dictionary.  The empty path replaces the whole data. */
  function SetData(d: Value, path: string, v: Value): (r: Result<(bool, Value)>)
    ensures r.Ok? ==> (r.value.0 <==> r.value.1 != d)
    ensures path == "" ==> r == Ok((d != v, v))
    ensures path != "" ==> (r.TypeError? <==> !d.Dict?)
    ensures path != "" && r.Ok? ==> Find(r.value.1, Split(path)) == Some(v)
    ensures path != "" && r.Ok? ==> (r.value.0 <==> Find(d, Split(path)) != Some(v))
  {
    if path == "" then Ok((d != v, v))
    else if !d.Dict? then TypeError
    else
      var keys := Split(path);
      FindPut(d.entries, keys, v);
      if Find(d, keys) == Some(v) then
        PutExisting(d.entries, keys, v);
        Ok((false, d))
      else
        Ok((true, Dict(Put(d.entries, keys, v))))
  }
}
