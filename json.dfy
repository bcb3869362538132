/** The untyped document tree that `JSONSerialization` produces (`[String: Any]`),
    and the one structural edit the configuration manager performs on it: write a
    value at a path of keys, creating a fresh mapping wherever a node on the way is
    missing or is not a mapping. */
module JsonTree {
  import opened Common

  /** A JSON value. Numbers are integers in this model. */
  datatype Json =
    | JNull
    | JBool(b: bool)
    | JNum(n: int)
    | JStr(s: string)
    | JArr(items: seq<Json>)
    | JObj(fields: map<string, Json>)

  /** `dict[key] as? [String: Any] ?? [:]`. */
  function ObjectAt(m: map<string, Json>, key: string): (r: map<string, Json>)
    ensures key in m && m[key].JObj? ==> r == m[key].fields
    ensures !(key in m && m[key].JObj?) ==> r == map[]
  {
    if key in m && m[key].JObj? then m[key].fields else map[]
  }

  /** The mapping a lookup found, or the empty mapping when it found nothing or
      something that is not a mapping. */
  function AsObject(found: Option<Json>): map<string, Json> {
    if found.Some? && found.value.JObj? then found.value.fields else map[]
  }

  /** The value at a path of keys, if every step lands on a mapping holding the key. */
  function Get(j: Json, path: seq<string>): Option<Json> {
    if path == [] then Some(j)
    else if j.JObj? && path[0] in j.fields then Get(j.fields[path[0]], path[1..])
    else None
  }

  predicate IsPrefix(p: seq<string>, q: seq<string>) {
    |p| <= |q| && q[..|p|] == p
  }

  /** Dropping a common first key keeps the prefix relation. */
  lemma PrefixStep(p: seq<string>, q: seq<string>)
    requires |p| > 0 && |q| > 0 && p[0] == q[0]
    ensures IsPrefix(p, q) <==> IsPrefix(p[1..], q[1..])
  {
    if IsPrefix(p[1..], q[1..]) {
      assert q[..|p|] == [q[0]] + q[1..][..|p| - 1];
    }
    if IsPrefix(p, q) {
      assert q[1..][..|p| - 1] == q[..|p|][1..];
    }
  }

  /** Write `v` at `path` below the mapping `m`: each intermediate node is taken as
      a mapping (a fresh empty one if it is missing or not a mapping), updated, and
      stored back under its key. */
  function SetPath(m: map<string, Json>, path: seq<string>, v: Json): (r: map<string, Json>)
    requires |path| > 0
    decreases |path|
  {
    if |path| == 1 then m[path[0] := v]
    else m[path[0] := JObj(SetPath(ObjectAt(m, path[0]), path[1..], v))]
  }

  /** After the write, the path holds the written value. */
  lemma {:induction false} SetPathWrites(m: map<string, Json>, path: seq<string>, v: Json)
    requires |path| > 0
    ensures Get(JObj(SetPath(m, path, v)), path) == Some(v)
    decreases |path|
  {
    if |path| > 1 {
      SetPathWrites(ObjectAt(m, path[0]), path[1..], v);
    }
  }

  /** No data loss: every path that is neither a prefix nor an extension of the
      written path has the same value (or the same absence) before and after. */
  lemma {:induction false} SetPathPreserves(m: map<string, Json>, path: seq<string>, v: Json, q: seq<string>)
    requires |path| > 0
    requires !IsPrefix(q, path) && !IsPrefix(path, q)
    ensures Get(JObj(SetPath(m, path, v)), q) == Get(JObj(m), q)
    decreases |path|
  {
    assert q != [] by { assert IsPrefix([], path); }
    var r := SetPath(m, path, v);
    if q[0] == path[0] {
      PrefixStep(path, q);
      PrefixStep(q, path);
      var inner := ObjectAt(m, path[0]);
      SetPathPreserves(inner, path[1..], v, q[1..]);
      assert Get(JObj(r), q) == Get(JObj(inner), q[1..]);
      if !(q[0] in m && m[q[0]].JObj?) {
        assert Get(JObj(inner), q[1..]) == None;
      }
    }
  }

  /** Writing the same value at the same path twice is the same as writing it once. */
  lemma {:induction false} SetPathIdempotent(m: map<string, Json>, path: seq<string>, v: Json)
    requires |path| > 0
    ensures SetPath(SetPath(m, path, v), path, v) == SetPath(m, path, v)
    decreases |path|
  {
    if |path| > 1 {
      var inner := SetPath(ObjectAt(m, path[0]), path[1..], v);
      assert ObjectAt(SetPath(m, path, v), path[0]) == inner;
      SetPathIdempotent(ObjectAt(m, path[0]), path[1..], v);
    }
  }

  /** Every node on the way down is the old node taken as a mapping (the empty
      mapping if it was missing or not a mapping) with the rest of the path
      written into it. In particular a missing or non-mapping node becomes a fresh
      mapping holding only the next key of the path. */
  lemma {:induction false} SetPathNodes(m: map<string, Json>, path: seq<string>, v: Json, i: nat)
    requires 0 < i < |path|
    ensures Get(JObj(SetPath(m, path, v)), path[..i])
         == Some(JObj(SetPath(AsObject(Get(JObj(m), path[..i])), path[i..], v)))
    decreases |path|
  {
    if i == 1 {
      SetPathTopNode(m, path, v);
    } else {
      var inner := ObjectAt(m, path[0]);
      var rest := path[1..];
      SetPathNodes(inner, rest, v, i - 1);
      assert rest[..i - 1] == path[1..i];
      assert rest[i - 1..] == path[i..];
      GetStep(m, path, i);
      var after := SetPath(m, path, v);
      assert ObjectAt(after, path[0]) == SetPath(inner, rest, v);
      GetStep(after, path, i);
    }
  }

  /** The first node on the way down is the old one, taken as a mapping, with the
      rest of the path written into it. */
  lemma SetPathTopNode(m: map<string, Json>, path: seq<string>, v: Json)
    requires 1 < |path|
    ensures Get(JObj(SetPath(m, path, v)), path[..1])
         == Some(JObj(SetPath(AsObject(Get(JObj(m), path[..1])), path[1..], v)))
  {
    assert path[..1] == [path[0]];
    assert path[..1][1..] == [];
    assert AsObject(Get(JObj(m), path[..1])) == ObjectAt(m, path[0]);
  }

  /** A lookup along a path of two or more keys is the lookup of the rest of the
      path in the first key's node, taken as a mapping. */
  lemma GetStep(m: map<string, Json>, path: seq<string>, i: nat)
    requires 1 < i <= |path|
    ensures Get(JObj(m), path[..i]) == Get(JObj(ObjectAt(m, path[0])), path[1..i])
  {
    assert path[..i][0] == path[0];
    assert path[..i][1..] == path[1..i];
    if !(path[0] in m && m[path[0]].JObj?) {
      assert Get(JObj(map[]), path[1..i]) == None;
    }
  }

  /** Two writes at paths that diverge (neither is a prefix of the other) commute. */
  lemma {:induction false} SetPathCommutes(m: map<string, Json>, p: seq<string>, v: Json, q: seq<string>, w: Json)
    requires |p| > 0 && |q| > 0
    requires !IsPrefix(q, p) && !IsPrefix(p, q)
    ensures SetPath(SetPath(m, p, v), q, w) == SetPath(SetPath(m, q, w), p, v)
    decreases |p|, 1
  {
    if p[0] == q[0] {
      SetPathCommutesBelow(m, p, v, q, w);
    } else {
      SetPathCommutesAtTop(m, p, v, q, w);
    }
  }

  /** Writes below the same top-level key commute when they diverge further down. */
  lemma {:induction false} SetPathCommutesBelow(m: map<string, Json>, p: seq<string>, v: Json, q: seq<string>, w: Json)
    requires |p| > 0 && |q| > 0 && p[0] == q[0]
    requires !IsPrefix(q, p) && !IsPrefix(p, q)
    ensures SetPath(SetPath(m, p, v), q, w) == SetPath(SetPath(m, q, w), p, v)
    decreases |p|, 0
  {
    PrefixStep(p, q);
    PrefixStep(q, p);
    var a := ObjectAt(m, p[0]);
    SetPathCommutes(a, p[1..], v, q[1..], w);
    SetPathTwice(m, p, v, q, w);
    SetPathTwice(m, q, w, p, v);
  }

  /** Two writes below the same top-level key rewrite only that key. */
  lemma SetPathTwice(m: map<string, Json>, p: seq<string>, v: Json, q: seq<string>, w: Json)
    requires |p| > 1 && |q| > 1 && p[0] == q[0]
    ensures SetPath(SetPath(m, p, v), q, w)
         == m[p[0] := JObj(SetPath(SetPath(ObjectAt(m, p[0]), p[1..], v), q[1..], w))]
  {
    var mp := SetPath(m, p, v);
    assert ObjectAt(mp, q[0]) == SetPath(ObjectAt(m, p[0]), p[1..], v);
  }

  /** What a write stores under the first key of its path. */
  function Written(m: map<string, Json>, path: seq<string>, v: Json): Json
    requires |path| > 0
  {
    if |path| == 1 then v else JObj(SetPath(ObjectAt(m, path[0]), path[1..], v))
  }

  /** A write replaces the first key of its path and nothing else, and what it
      stores there depends only on what that key held before. */
  lemma WrittenAtTop(m: map<string, Json>, path: seq<string>, v: Json, k: string, x: Json)
    requires |path| > 0 && k != path[0]
    ensures SetPath(m, path, v) == m[path[0] := Written(m, path, v)]
    ensures Written(m[k := x], path, v) == Written(m, path, v)
  {
    assert ObjectAt(m[k := x], path[0]) == ObjectAt(m, path[0]);
  }

  /** Writes below two different top-level keys commute. */
  lemma SetPathCommutesAtTop(m: map<string, Json>, p: seq<string>, v: Json, q: seq<string>, w: Json)
    requires |p| > 0 && |q| > 0 && p[0] != q[0]
    ensures SetPath(SetPath(m, p, v), q, w) == SetPath(SetPath(m, q, w), p, v)
  {
    var x, y := Written(m, p, v), Written(m, q, w);
    WrittenAtTop(m, p, v, q[0], y);
    WrittenAtTop(m, q, w, p[0], x);
    WrittenAtTop(m[p[0] := x], q, w, p[0], x);
    WrittenAtTop(m[q[0] := y], p, v, q[0], y);
    assert m[p[0] := x][q[0] := y] == m[q[0] := y][p[0] := x];
  }
}
