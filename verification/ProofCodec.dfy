/**
 The proof-server wire codec (`serializeObject`, `deserializeObject`): keys change case, and
 BigNumbers travel as numbers. Both sides are trees; numbers are integers that a JavaScript
 number holds exactly.
 */
module ProofCodec {
  import opened Wrappers
  import opened Sequences
  import opened KeyCase

  const MAX_SAFE_INTEGER := 0x1F_FFFF_FFFF_FFFF

  type SafeInteger = n: int | -MAX_SAFE_INTEGER <= n <= MAX_SAFE_INTEGER

  /** `Big` is a BigNumber, `Num` a plain JavaScript number; an object lists its fields in insertion order. */
  datatype Value =
    | Null
    | Bool(b: bool)
    | Text(s: string)
    | Big(n: SafeInteger)
    | Num(n: SafeInteger)
    | Arr(items: seq<Value>)
    | Obj(fields: seq<Field>)

  datatype Field = Field(key: string, val: Value)

  /** `result[key] = val`: an existing field keeps its place and takes the new value. */
  function Put(fields: seq<Field>, key: string, val: Value): seq<Field> {
    if fields == [] then [Field(key, val)]
    else if fields[0].key == key then [Field(key, val)] + fields[1..]
    else [fields[0]] + Put(fields[1..], key, val)
  }

  /** lodash's `mapKeys`: fields whose keys become equal are merged, the last one winning. */
  function MapKeys(fields: seq<Field>, rename: string -> string): seq<Field> {
    if fields == [] then []
    else
      var last := fields[|fields| - 1];
      Put(MapKeys(fields[..|fields| - 1], rename), rename(last.key), last.val)
  }

  lemma PutValue(fields: seq<Field>, key: string, val: Value, i: nat)
    requires i < |Put(fields, key, val)|
    ensures Put(fields, key, val)[i].val == val || exists f :: f in fields && f.val == Put(fields, key, val)[i].val
  {
    var r := Put(fields, key, val);
    if fields != [] && fields[0].key != key && i > 0 {
      PutValue(fields[1..], key, val, i - 1);
    } else if i > 0 && fields != [] {
      assert r[i] == fields[i];
    } else if fields != [] {
      assert fields[0] in fields;
    }
  }

  /** Renaming keys brings in no new value. */
  lemma MapKeysValue(fields: seq<Field>, rename: string -> string, i: nat)
    requires i < |MapKeys(fields, rename)|
    ensures exists f :: f in fields && f.val == MapKeys(fields, rename)[i].val
  {
    var front, last := fields[..|fields| - 1], fields[|fields| - 1];
    var renamed := MapKeys(front, rename);
    PutValue(renamed, rename(last.key), last.val, i);
    if MapKeys(fields, rename)[i].val == last.val {
      assert last in fields;
    } else {
      var f :| f in renamed && f.val == MapKeys(fields, rename)[i].val;
      var k :| 0 <= k < |renamed| && renamed[k] == f;
      MapKeysValue(front, rename, k);
    }
  }

  function SerializeObject(v: Value): Value
    decreases v
  {
    match v
    case Arr(items) => Arr(seq(|items|, i requires 0 <= i < |items| => SerializeObject(items[i])))
    case Big(n) => Num(n)
    case Obj(fields) =>
      var snakeCased := MapKeys(fields, SnakeCase);
      Obj(seq(|snakeCased|, i requires 0 <= i < |snakeCased| =>
        MapKeysValue(fields, SnakeCase, i);
        Field(snakeCased[i].key, SerializeObject(snakeCased[i].val))))
    case _ => v
  }

  function DeserializeObject(v: Value): Value
    decreases v
  {
    match v
    case Arr(items) => Arr(seq(|items|, i requires 0 <= i < |items| => DeserializeObject(items[i])))
    case Num(n) => Big(n)
    case Obj(fields) =>
      var camelCased := MapKeys(fields, CamelCase);
      Obj(seq(|camelCased|, i requires 0 <= i < |camelCased| =>
        MapKeysValue(fields, CamelCase, i);
        Field(camelCased[i].key, DeserializeObject(camelCased[i].val))))
    case _ => v
  }

  // ----- trees with canonical keys -----

  predicate DistinctKeys(fields: seq<Field>) {
    forall i, j :: 0 <= i < j < |fields| ==> fields[i].key != fields[j].key
  }

  /** Every object's keys are distinct and satisfy `canonical`. */
  predicate Tree(v: Value, canonical: string -> bool)
    decreases v
  {
    match v
    case Arr(items) => forall i :: 0 <= i < |items| ==> Tree(items[i], canonical)
    case Obj(fields) =>
      && DistinctKeys(fields)
      && forall i :: 0 <= i < |fields| ==> canonical(fields[i].key) && Tree(fields[i].val, canonical)
    case _ => true
  }

  /** The tree with every number of the other kind turned into a BigNumber (or a plain number). */
  function WithNumbers(v: Value, big: bool): Value
    decreases v
  {
    match v
    case Num(n) => if big then Big(n) else v
    case Big(n) => if big then v else Num(n)
    case Arr(items) => Arr(seq(|items|, i requires 0 <= i < |items| => WithNumbers(items[i], big)))
    case Obj(fields) =>
      Obj(seq(|fields|, i requires 0 <= i < |fields| => Field(fields[i].key, WithNumbers(fields[i].val, big))))
    case _ => v
  }

  /** Every number in the tree is a BigNumber (or a plain number). */
  predicate OnlyNumbers(v: Value, big: bool)
    decreases v
  {
    match v
    case Num(_) => !big
    case Big(_) => big
    case Arr(items) => forall i :: 0 <= i < |items| ==> OnlyNumbers(items[i], big)
    case Obj(fields) => forall i :: 0 <= i < |fields| ==> OnlyNumbers(fields[i].val, big)
    case _ => true
  }

  lemma {:induction false} PutFresh(fields: seq<Field>, key: string, val: Value)
    requires forall i :: 0 <= i < |fields| ==> fields[i].key != key
    ensures Put(fields, key, val) == fields + [Field(key, val)]
  {
    if fields != [] {
      PutFresh(fields[1..], key, val);
      assert fields + [Field(key, val)] == [fields[0]] + (fields[1..] + [Field(key, val)]);
    }
  }

  function Renamed(fields: seq<Field>, rename: string -> string): seq<Field> {
    Map(fields, (f: Field) => Field(rename(f.key), f.val))
  }

  /** A renaming that keeps the keys apart keeps every field in its place. */
  lemma {:induction false} MapKeysDistinct(fields: seq<Field>, rename: string -> string)
    requires DistinctKeys(Renamed(fields, rename))
    ensures MapKeys(fields, rename) == Renamed(fields, rename)
  {
    if fields != [] {
      var n, target := |fields| - 1, Renamed(fields, rename);
      assert Renamed(fields[..n], rename) == target[..n];
      MapKeysDistinct(fields[..n], rename);
      PutFresh(target[..n], rename(fields[n].key), fields[n].val);
      assert target == target[..n] + [target[n]];
    }
  }

  function Keys(fields: seq<Field>): set<string> {
    set i | 0 <= i < |fields| :: fields[i].key
  }

  lemma {:induction false} PutKeys(fields: seq<Field>, key: string, val: Value)
    ensures Keys(Put(fields, key, val)) == Keys(fields) + {key}
    ensures |Put(fields, key, val)| == |fields| + if key in Keys(fields) then 0 else 1
  {
    var r := Put(fields, key, val);
    KeysCons(r);
    if fields == [] {
      assert r[1..] == [];
    } else {
      KeysCons(fields);
      if fields[0].key == key {
        assert r[1..] == fields[1..];
      } else {
        PutKeys(fields[1..], key, val);
        assert r[1..] == Put(fields[1..], key, val);
      }
    }
  }

  lemma KeysCons(fields: seq<Field>)
    requires fields != []
    ensures Keys(fields) == {fields[0].key} + Keys(fields[1..])
  {
    forall k | k in Keys(fields) ensures k in {fields[0].key} + Keys(fields[1..]) {
      var i :| 0 <= i < |fields| && fields[i].key == k;
      assert i > 0 ==> fields[1..][i - 1].key == k;
    }
    forall k | k in Keys(fields[1..]) ensures k in Keys(fields) {
      var i :| 0 <= i < |fields[1..]| && fields[1..][i].key == k;
      assert fields[i + 1].key == k;
    }
  }

  /** `mapKeys` loses a field exactly when the renaming makes two keys meet. */
  lemma {:induction false} MapKeysCount(fields: seq<Field>, rename: string -> string)
    ensures Keys(MapKeys(fields, rename)) == Keys(Renamed(fields, rename))
    ensures |MapKeys(fields, rename)| <= |fields|
    ensures |MapKeys(fields, rename)| == |fields| <==> DistinctKeys(Renamed(fields, rename))
  {
    if fields != [] {
      var n, target := |fields| - 1, Renamed(fields, rename);
      assert Renamed(fields[..n], rename) == target[..n];
      MapKeysCount(fields[..n], rename);
      PutKeys(MapKeys(fields[..n], rename), target[n].key, fields[n].val);
      KeysSnoc(target);
    }
  }

  lemma KeysSnoc(fields: seq<Field>)
    requires fields != []
    ensures var n := |fields| - 1;
      && Keys(fields) == Keys(fields[..n]) + {fields[n].key}
      && (DistinctKeys(fields) <==> DistinctKeys(fields[..n]) && fields[n].key !in Keys(fields[..n]))
  {
    var n := |fields| - 1;
    forall i | 0 <= i < n ensures fields[..n][i] == fields[i] && fields[i].key in Keys(fields[..n]) {
      assert fields[..n][i].key in Keys(fields[..n]);
    }
  }

  lemma SnakeRenamed(fields: seq<Field>)
    requires DistinctKeys(fields) && forall i :: 0 <= i < |fields| ==> CamelKey(fields[i].key)
    ensures var renamed := Renamed(fields, SnakeCase);
      && DistinctKeys(renamed)
      && forall i :: 0 <= i < |fields| ==>
           && renamed[i] == Field(SnakeCase(fields[i].key), fields[i].val)
           && SnakeKey(renamed[i].key) && CamelCase(renamed[i].key) == fields[i].key
  {
    forall i | 0 <= i < |fields|
      ensures SnakeKey(SnakeCase(fields[i].key)) && CamelCase(SnakeCase(fields[i].key)) == fields[i].key
    {
      KeysRoundTrip(fields[i].key, "");
    }
  }

  lemma CamelRenamed(fields: seq<Field>)
    requires DistinctKeys(fields) && forall i :: 0 <= i < |fields| ==> SnakeKey(fields[i].key)
    ensures var renamed := Renamed(fields, CamelCase);
      && DistinctKeys(renamed)
      && forall i :: 0 <= i < |fields| ==>
           && renamed[i] == Field(CamelCase(fields[i].key), fields[i].val)
           && CamelKey(renamed[i].key) && SnakeCase(renamed[i].key) == fields[i].key
  {
    forall i | 0 <= i < |fields|
      ensures CamelKey(CamelCase(fields[i].key)) && SnakeCase(CamelCase(fields[i].key)) == fields[i].key
    {
      KeysRoundTrip("", fields[i].key);
    }
  }

  /** Serialising an object with canonical keys handles each field by itself. */
  lemma WireFields(fields: seq<Field>)
    requires DistinctKeys(fields) && forall i :: 0 <= i < |fields| ==> CamelKey(fields[i].key)
    ensures var wire := SerializeObject(Obj(fields)).fields;
      && |wire| == |fields| && DistinctKeys(wire)
      && forall i :: 0 <= i < |fields| ==>
           && wire[i] == Field(SnakeCase(fields[i].key), SerializeObject(fields[i].val))
           && SnakeKey(wire[i].key) && CamelCase(wire[i].key) == fields[i].key
  {
    SnakeRenamed(fields);
    MapKeysDistinct(fields, SnakeCase);
  }

  lemma LocalFields(fields: seq<Field>)
    requires DistinctKeys(fields) && forall i :: 0 <= i < |fields| ==> SnakeKey(fields[i].key)
    ensures var local := DeserializeObject(Obj(fields)).fields;
      && |local| == |fields| && DistinctKeys(local)
      && forall i :: 0 <= i < |fields| ==>
           && local[i] == Field(CamelCase(fields[i].key), DeserializeObject(fields[i].val))
           && CamelKey(local[i].key) && SnakeCase(local[i].key) == fields[i].key
  {
    CamelRenamed(fields);
    MapKeysDistinct(fields, CamelCase);
  }

  // ----- round trips -----

  lemma {:induction false} SerializeThenDeserialize(v: Value)
    requires Tree(v, CamelKey)
    ensures Tree(SerializeObject(v), SnakeKey) && DeserializeObject(SerializeObject(v)) == WithNumbers(v, true)
    decreases v
  {
    match v
    case Arr(items) =>
      forall i | 0 <= i < |items|
        ensures Tree(SerializeObject(items[i]), SnakeKey)
        ensures DeserializeObject(SerializeObject(items[i])) == WithNumbers(items[i], true)
      {
        SerializeThenDeserialize(items[i]);
      }
    case Obj(fields) =>
      WireFields(fields);
      var wire := SerializeObject(v).fields;
      forall i | 0 <= i < |fields|
        ensures Tree(wire[i].val, SnakeKey) && DeserializeObject(wire[i].val) == WithNumbers(fields[i].val, true)
      {
        SerializeThenDeserialize(fields[i].val);
      }
      LocalFields(wire);
      assert DeserializeObject(Obj(wire)).fields == WithNumbers(v, true).fields;
    case _ =>
  }

  lemma {:induction false} DeserializeThenSerialize(j: Value)
    requires Tree(j, SnakeKey)
    ensures Tree(DeserializeObject(j), CamelKey) && SerializeObject(DeserializeObject(j)) == WithNumbers(j, false)
    decreases j
  {
    match j
    case Arr(items) =>
      forall i | 0 <= i < |items|
        ensures Tree(DeserializeObject(items[i]), CamelKey)
        ensures SerializeObject(DeserializeObject(items[i])) == WithNumbers(items[i], false)
      {
        DeserializeThenSerialize(items[i]);
      }
    case Obj(fields) =>
      LocalFields(fields);
      var local := DeserializeObject(j).fields;
      forall i | 0 <= i < |fields|
        ensures Tree(local[i].val, CamelKey) && SerializeObject(local[i].val) == WithNumbers(fields[i].val, false)
      {
        DeserializeThenSerialize(fields[i].val);
      }
      WireFields(local);
      assert SerializeObject(Obj(local)).fields == WithNumbers(j, false).fields;
    case _ =>
  }

  lemma {:induction false} NumbersFixed(v: Value, big: bool)
    ensures WithNumbers(v, big) == v <==> OnlyNumbers(v, big)
    decreases v
  {
    match v
    case Arr(items) =>
      forall i | 0 <= i < |items| ensures WithNumbers(items[i], big) == items[i] <==> OnlyNumbers(items[i], big) {
        NumbersFixed(items[i], big);
      }
      assert WithNumbers(v, big) == v ==> forall i :: 0 <= i < |items| ==> WithNumbers(v, big).items[i] == items[i];
    case Obj(fields) =>
      forall i | 0 <= i < |fields|
        ensures WithNumbers(fields[i].val, big) == fields[i].val <==> OnlyNumbers(fields[i].val, big)
      {
        NumbersFixed(fields[i].val, big);
      }
      assert WithNumbers(v, big) == v ==> forall i :: 0 <= i < |fields| ==> WithNumbers(v, big).fields[i] == fields[i];
    case _ =>
  }

  /** Sending a camel-case tree and reading it back gives the tree, exactly if it holds no plain number. */
  lemma RoundTripExact(v: Value)
    requires Tree(v, CamelKey)
    ensures DeserializeObject(SerializeObject(v)) == v <==> OnlyNumbers(v, true)
  {
    SerializeThenDeserialize(v);
    NumbersFixed(v, true);
  }

  /** Reading a snake-case tree and sending it back gives the tree, exactly if it holds no BigNumber. */
  lemma WireRoundTripExact(j: Value)
    requires Tree(j, SnakeKey)
    ensures SerializeObject(DeserializeObject(j)) == j <==> OnlyNumbers(j, false)
  {
    DeserializeThenSerialize(j);
    NumbersFixed(j, false);
  }

  // ----- paths -----

  datatype Step = Key(k: string) | Index(i: nat)

  function Get(fields: seq<Field>, key: string): Option<Value> {
    var i := FindIndex(fields, (f: Field) => f.key == key);
    if i < 0 then None else Some(fields[i].val)
  }

  function Lookup(v: Value, path: seq<Step>): Option<Value>
    decreases |path|
  {
    if path == [] then Some(v)
    else
      var next := match (v, path[0])
        case (Obj(fields), Key(k)) => Get(fields, k)
        case (Arr(items), Index(i)) => if i < |items| then Some(items[i]) else None
        case _ => None;
      if next.None? then None else Lookup(next.value, path[1..])
  }

  function SnakePath(path: seq<Step>): seq<Step> {
    Map(path, (s: Step) => if s.Key? then Key(SnakeCase(s.k)) else s)
  }

  lemma GetAt(fields: seq<Field>, i: nat)
    requires DistinctKeys(fields) && i < |fields|
    ensures Get(fields, fields[i].key) == Some(fields[i].val)
  {
    assert fields[i] in fields;
  }

  lemma GetSerialized(fields: seq<Field>, key: string)
    requires Tree(Obj(fields), CamelKey) && CamelKey(key)
    ensures var wire := SerializeObject(Obj(fields)).fields;
      && |wire| == |fields|
      && Get(wire, SnakeCase(key)) ==
         match Get(fields, key) case None => None case Some(x) => Some(SerializeObject(x))
  {
    WireFields(fields);
    var wire := SerializeObject(Obj(fields)).fields;
    var i := FindIndex(fields, (f: Field) => f.key == key);
    if i >= 0 {
      GetAt(wire, i);
    } else {
      KeysRoundTrip(key, "");
      forall k | 0 <= k < |wire| ensures wire[k].key != SnakeCase(key) {
        assert fields[k] in fields;
      }
    }
  }

  /**
   Nothing is lost at any depth: every camel-case path, present or absent, leads to the same place
   in the serialised tree under its snake-case name.
   */
  lemma {:induction false} PathsKept(v: Value, path: seq<Step>)
    requires Tree(v, CamelKey)
    requires forall s :: s in path && s.Key? ==> CamelKey(s.k)
    ensures Lookup(SerializeObject(v), SnakePath(path)) ==
      match Lookup(v, path) case None => None case Some(x) => Some(SerializeObject(x))
    decreases |path|
  {
    if path != [] {
      assert SnakePath(path)[1..] == SnakePath(path[1..]);
      match (v, path[0])
      case (Obj(fields), Key(k)) =>
        GetSerialized(fields, k);
        var i := FindIndex(fields, (f: Field) => f.key == k);
        if i >= 0 {
          PathsKept(fields[i].val, path[1..]);
        }
      case (Arr(items), Index(i)) =>
        if i < |items| {
          PathsKept(items[i], path[1..]);
        }
      case _ =>
    }
  }

  predicate Leaf(v: Value) {
    !v.Arr? && !v.Obj?
  }

  /** At every path to a leaf the wire holds the same leaf, with a BigNumber as the plain number of the same value. */
  lemma LeavesOnTheWire(v: Value, path: seq<Step>)
    requires Tree(v, CamelKey)
    requires forall s :: s in path && s.Key? ==> CamelKey(s.k)
    requires Lookup(v, path).Some? && Leaf(Lookup(v, path).value)
    ensures var leaf := Lookup(v, path).value;
      Lookup(SerializeObject(v), SnakePath(path)) == Some(if leaf.Big? then Num(leaf.n) else leaf)
  {
    PathsKept(v, path);
  }

  /** A field of the renamed object holds what the last of the fields renamed to its key held. */
  lemma {:induction false} MapKeysLastWins(fields: seq<Field>, rename: string -> string, i: nat)
    requires i < |fields| && forall j :: i < j < |fields| ==> rename(fields[j].key) != rename(fields[i].key)
    ensures Get(MapKeys(fields, rename), rename(fields[i].key)) == Some(fields[i].val)
  {
    var n := |fields| - 1;
    var before, key := MapKeys(fields[..n], rename), rename(fields[n].key);
    if i < n {
      MapKeysLastWins(fields[..n], rename, i);
    }
    PutGet(before, key, fields[n].val, rename(fields[i].key));
  }

  lemma GetCons(fields: seq<Field>, key: string)
    requires fields != []
    ensures Get(fields, key) == if fields[0].key == key then Some(fields[0].val) else Get(fields[1..], key)
  {
  }

  lemma {:induction false} PutGet(fields: seq<Field>, key: string, val: Value, other: string)
    ensures Get(Put(fields, key, val), other) == if other == key then Some(val) else Get(fields, other)
  {
    var put := Put(fields, key, val);
    GetCons(put, other);
    if fields == [] {
      assert put[1..] == [];
    } else {
      GetCons(fields, other);
      if fields[0].key == key {
        assert put[1..] == fields[1..];
      } else {
        PutGet(fields[1..], key, val, other);
        assert put[1..] == Put(fields[1..], key, val);
      }
    }
  }
}
