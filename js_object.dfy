/**
 * The JavaScript values the request builder creates: strings and plain
 * objects. An object is its own property names in the order an XML
 * serialiser visits them and the value of each property. That order is taken
 * to be insertion order, which JavaScript follows for ordinary names only:
 * it lists array-index names (`"2"`) first, in ascending order, and writing
 * `__proto__` replaces the prototype instead of adding a property.
 */
module JsObject {
  import opened Wrappers

  datatype Json = Str(s: string) | Obj(keys: seq<string>, props: map<string, Json>)

  /** The literal `{}`. */
  const Empty: Json := Obj([], map[])

  /** What every JavaScript object satisfies: each property listed once, and only those. */
  ghost predicate Proper(o: Json) {
    o.Obj? &&
    (forall i, j :: 0 <= i < j < |o.keys| ==> o.keys[i] != o.keys[j]) &&
    (forall k :: k in o.props <==> k in o.keys)
  }

  /** The property read `o[k]`; `None` stands for `undefined`. */
  function Prop(o: Json, k: string): (r: Option<Json>)
    ensures r.Some? <==> o.Obj? && k in o.keys && k in o.props
  {
    if o.Obj? && k in o.keys && k in o.props then Some(o.props[k]) else None
  }

  /**
   * The property write `o[k] = v` for an ordinary name `k`: an existing
   * property keeps its place in the order and takes the new value, a new one
   * is appended.
   */
  function Put(o: Json, k: string, v: Json): (r: Json)
    requires o.Obj?
    ensures r.Obj? && Prop(r, k) == Some(v)
  {
    Obj(if k in o.keys then o.keys else o.keys + [k], o.props[k := v])
  }

  /** Writing property `k` leaves every other property as it was. */
  lemma PutOther(o: Json, k: string, v: Json, q: string)
    requires o.Obj? && q != k
    ensures Prop(Put(o, k, v), q) == Prop(o, q)
  {
  }

  /** On a real object, `o[k] = v` keeps every property listed once. */
  lemma PutProper(o: Json, k: string, v: Json)
    requires Proper(o)
    ensures Proper(Put(o, k, v))
  {
  }

  /** Writing the same property twice leaves only the second value. */
  lemma PutTwice(o: Json, k: string, a: Json, b: Json)
    requires o.Obj?
    ensures Put(Put(o, k, a), k, b) == Put(o, k, b)
  {
    assert o.props[k := a][k := b] == o.props[k := b];
  }

  /** Writing back the value a property already holds changes nothing. */
  lemma PutUnchanged(o: Json, k: string, v: Json)
    requires Prop(o, k) == Some(v)
    ensures Put(o, k, v) == o
  {
    assert o.props[k := v] == o.props;
  }

  /**
   * The node reached from `t` by reading the properties of `path` in turn:
   * one key is one property read, and a missing property on the way leads
   * nowhere.
   */
  function At(t: Json, path: seq<string>): (r: Option<Json>)
    ensures |path| == 1 ==> r == Prop(t, path[0])
    ensures path != [] && Prop(t, path[0]).None? ==> r.None?
    decreases |path|
  {
    if path == [] then Some(t)
    else match Prop(t, path[0])
      case None => None
      case Some(child) => At(child, path[1..])
  }

  /** `t` with the node at `path` replaced by `sub`; `t` itself when `path` leads nowhere. */
  function Graft(t: Json, path: seq<string>, sub: Json): (r: Json)
    ensures At(t, path).Some? ==> At(r, path) == Some(sub)
    ensures At(t, path).None? ==> r == t
    decreases |path|
  {
    if path == [] then sub
    else match Prop(t, path[0])
      case None => t
      case Some(child) =>
        var r := Put(t, path[0], Graft(child, path[1..], sub));
        assert At(t, path).None? ==> t.props[path[0] := child] == t.props;
        r
  }

  /**
   * The assignment `node[k] = v` made through a reference `node` to the
   * object at `path` inside `t`: the object there gains (or overwrites)
   * property `k`.
   */
  function SetProperty(t: Json, path: seq<string>, k: string, v: Json): (r: Json)
    requires At(t, path).Some? && At(t, path).value.Obj?
    ensures At(r, path) == Some(Put(At(t, path).value, k, v))
  {
    Graft(t, path, Put(At(t, path).value, k, v))
  }

  /** Reading a path one property at a time. */
  lemma AtStep(t: Json, k: string, rest: seq<string>)
    ensures At(t, [k] + rest) == match Prop(t, k) case None => None case Some(c) => At(c, rest)
  {
    assert ([k] + rest)[1..] == rest;
  }

  /** Replacing below property `k` rewrites only that property. */
  lemma GraftStep(t: Json, k: string, rest: seq<string>, sub: Json)
    requires Prop(t, k).Some?
    ensures Graft(t, [k] + rest, sub) == Put(t, k, Graft(Prop(t, k).value, rest, sub))
  {
    assert ([k] + rest)[1..] == rest;
  }

  /** A second replacement at the same place overrides the first. */
  lemma {:induction false} GraftTwice(t: Json, path: seq<string>, a: Json, b: Json)
    requires At(t, path).Some?
    ensures Graft(Graft(t, path, a), path, b) == Graft(t, path, b)
    decreases |path|
  {
    if path != [] {
      var child := Prop(t, path[0]).value;
      GraftTwice(child, path[1..], a, b);
      PutTwice(t, path[0], Graft(child, path[1..], a), Graft(child, path[1..], b));
    }
  }

  /** Replacing a node by itself changes nothing. */
  lemma {:induction false} GraftSame(t: Json, path: seq<string>)
    requires At(t, path).Some?
    ensures Graft(t, path, At(t, path).value) == t
    decreases |path|
  {
    if path != [] {
      var child := Prop(t, path[0]).value;
      GraftSame(child, path[1..]);
      PutUnchanged(t, path[0], child);
    }
  }

  /**
   * Nothing outside the replaced node changes: a path that neither leads into
   * nor passes through `path` reaches what it reached before.
   */
  lemma {:induction false} GraftElsewhere(t: Json, path: seq<string>, sub: Json, other: seq<string>)
    requires At(t, path).Some?
    requires !(|path| <= |other| && other[..|path|] == path)
    requires !(|other| <= |path| && path[..|other|] == other)
    ensures At(Graft(t, path, sub), other) == At(t, other)
    decreases |path|
  {
    if other[0] == path[0] {
      GraftElsewhere(Prop(t, path[0]).value, path[1..], sub, other[1..]);
    } else {
      var child := Prop(t, path[0]).value;
      PutOther(t, path[0], Graft(child, path[1..], sub), other[0]);
    }
  }
}
