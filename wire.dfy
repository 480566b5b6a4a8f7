/** The remote tree: JSON-like values addressed by paths of child keys, read
    and written whole, and the casts the code applies to what it reads. */
module Wire {
  import opened Options

  /** A node of the tree. Arrays are kept as lists. */
  datatype Value =
    | Str(s: string)
    | Flag(b: bool)
    | Dict(fields: map<string, Value>)
    | List(items: seq<Value>)

  type Path = seq<string>

  /** The value at `path` below `v`, if there is one. */
  function Get(v: Value, path: Path): Option<Value>
    decreases |path|
  {
    if path == [] then Some(v)
    else if v.Dict? && path[0] in v.fields then Get(v.fields[path[0]], path[1..])
    else None
  }

  /** `v` with the value at `path` replaced by `x` (`setValue`); missing or
      non-dictionary nodes on the way become dictionaries. */
  function Set(v: Value, path: Path, x: Value): Value
    decreases |path|
  {
    if path == [] then x
    else
      var fields := if v.Dict? then v.fields else map[];
      var child := if path[0] in fields then fields[path[0]] else Dict(map[]);
      Dict(fields[path[0] := Set(child, path[1..], x)])
  }

  /** After a write at `path`, everything below `path` is read from the value written. */
  lemma {:induction false} GetSetBelow(v: Value, path: Path, x: Value, rest: Path)
    ensures Get(Set(v, path, x), path + rest) == Get(x, rest)
    decreases |path|
  {
    if path == [] {
      assert path + rest == rest;
    } else {
      var fields := if v.Dict? then v.fields else map[];
      var child := if path[0] in fields then fields[path[0]] else Dict(map[]);
      assert (path + rest)[0] == path[0];
      assert (path + rest)[1..] == path[1..] + rest;
      GetSetBelow(child, path[1..], x, rest);
    }
  }

  /** A write reads back as written. */
  lemma GetSetSame(v: Value, path: Path, x: Value)
    ensures Get(Set(v, path, x), path) == Some(x)
  {
    GetSetBelow(v, path, x, []);
    assert path + [] == path;
  }

  /** A write under one top-level key leaves every other top-level key's
      subtree as it was. */
  lemma GetSetOtherKey(v: Value, path: Path, x: Value, other: Path)
    requires path != [] && other != [] && path[0] != other[0]
    ensures Get(Set(v, path, x), other) == Get(v, other)
  {
  }

  /** Reading a child path is reading the child of the parent's value. */
  lemma {:induction false} GetAppend(v: Value, path: Path, rest: Path)
    ensures Get(v, path + rest) == if Get(v, path).Some? then Get(Get(v, path).value, rest) else None
    decreases |path|
  {
    if path != [] {
      assert (path + rest)[0] == path[0];
      assert (path + rest)[1..] == path[1..] + rest;
      if v.Dict? && path[0] in v.fields {
        GetAppend(v.fields[path[0]], path[1..], rest);
      }
    } else {
      assert path + rest == rest;
    }
  }

  /** `dict[key]`. */
  function Field(fields: map<string, Value>, key: string): Option<Value>
  {
    if key in fields then Some(fields[key]) else None
  }

  /** `dict[key] as? String`. */
  function StringField(fields: map<string, Value>, key: string): Option<string>
  {
    if key in fields && fields[key].Str? then Some(fields[key].s) else None
  }

  /** `dict[key] as? Bool`. */
  function BoolField(fields: map<string, Value>, key: string): Option<bool>
  {
    if key in fields && fields[key].Flag? then Some(fields[key].b) else None
  }

  /** `dict[key] as? [String: Any]`. */
  function DictField(fields: map<string, Value>, key: string): Option<map<string, Value>>
  {
    if key in fields && fields[key].Dict? then Some(fields[key].fields) else None
  }

  /** `snapshot.value as? [[String: Any]]`: an array of dictionaries. */
  predicate IsRecordList(node: Option<Value>)
  {
    node.Some? && node.value.List? && forall i :: 0 <= i < |node.value.items| ==> node.value.items[i].Dict?
  }

  /** `snapshot.value as? [[String: String]]`: an array of dictionaries of strings. */
  predicate IsStringRecordList(node: Option<Value>)
  {
    && IsRecordList(node)
    && forall i, k :: 0 <= i < |node.value.items| && k in node.value.items[i].fields ==> node.value.items[i].fields[k].Str?
  }

  /** The elements of an array of dictionaries; nothing when the node is not one. */
  function Records(node: Option<Value>): seq<Value>
  {
    if IsRecordList(node) then node.value.items else []
  }

  /** The test of the code's scans: `item[key] as? String` equals `value`. */
  predicate HasField(item: Value, key: string, value: string)
  {
    item.Dict? && StringField(item.fields, key) == Some(value)
  }

  /** The position of the first element whose `key` holds `value`; the length
      of `items` when there is none. */
  function IndexOfField(items: seq<Value>, key: string, value: string): (k: nat)
    ensures k <= |items|
    ensures forall j :: 0 <= j < k ==> !HasField(items[j], key, value)
    ensures k < |items| ==> HasField(items[k], key, value)
  {
    if items == [] then 0
    else if HasField(items[0], key, value) then 0
    else 1 + IndexOfField(items[1..], key, value)
  }

  /** A node that is a dictionary. */
  predicate IsDictNode(node: Option<Value>)
  {
    node.Some? && node.value.Dict?
  }

  /** A write at a two-key path leaves the other children of the parent as
      they were. */
  lemma GetSetSibling(v: Value, key: string, child: string, x: Value, other: string)
    requires other != child
    ensures Get(Set(v, [key, child], x), [key, other]) == Get(v, [key, other])
  {
    GetAppend(Set(v, [key, child], x), [key], [other]);
    GetAppend(v, [key], [other]);
    assert [key] + [other] == [key, other];
  }

  /** A write of a whole node at a top-level key decides what its children read. */
  lemma GetSetChild(v: Value, key: string, x: Value, child: string)
    ensures Get(Set(v, [key], x), [key, child]) == Get(x, [child])
  {
    GetSetBelow(v, [key], x, [child]);
    assert [key] + [child] == [key, child];
  }

}
