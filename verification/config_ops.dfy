/** Config operations: their meaning on a document, and the diff that produces them. */
module ConfigOps {
  import opened Common
  import opened JsonTree
  import opened DotPath

  /** The value of a set operation: what decoding strict JSON text gives, or plain text. */
  datatype Value = Strict(decoded: Option<Json>) | Plain(text: string)

  datatype ConfigOp =
    | SetOp(path: string, value: Value, replace: bool)
    | UnsetOp(path: string)
    | OtherOp(name: string)

  function PathOf(op: ConfigOp): Path {
    if op.OtherOp? then [] else Segments(op.path)
  }

  function EditOf(op: ConfigOp): Edit {
    match op
    case SetOp(_, Strict(Some(v)), _) => Put(v)
    case SetOp(_, Strict(None), _) => Touch
    case SetOp(_, Plain(text), _) => Put(Str(text))
    case UnsetOp(_) => Drop
    case OtherOp(_) => Drop
  }

  /** The document after one operation. An operation without a path changes nothing. */
  function Applied(j: Json, op: ConfigOp): Json {
    if PathOf(op) == [] then j else Edited(j, PathOf(op), EditOf(op))
  }

  function AppliedAll(j: Json, ops: seq<ConfigOp>): Json
    decreases |ops|
  {
    if ops == [] then j else AppliedAll(Applied(j, ops[0]), ops[1..])
  }

  /** What an operation leaves at its path: a set the decoded value or the text itself, a set that fails to decode what
      was there, an unset nothing. Without a path, and for an unknown operation, nothing happens. */
  lemma WhatAnOperationLeaves(j: Json, op: ConfigOp)
    ensures op.OtherOp? || Segments(op.path) == [] ==> Applied(j, op) == j
    ensures op.SetOp? && Segments(op.path) != [] ==>
              Get(Applied(j, op), Segments(op.path)) == match op.value
                                                        case Strict(Some(v)) => Some(v)
                                                        case Strict(None) => Get(j, Segments(op.path))
                                                        case Plain(text) => Some(Str(text))
    ensures op.UnsetOp? && Segments(op.path) != [] ==> Get(Applied(j, op), Segments(op.path)) == None
  {
    if !op.OtherOp? && Segments(op.path) != [] {
      GetEdited(j, PathOf(op), EditOf(op));
    }
  }

  // ---- Order independence ----

  lemma {:induction false} AppliedConcat(j: Json, a: seq<ConfigOp>, b: seq<ConfigOp>)
    ensures AppliedAll(j, a + b) == AppliedAll(AppliedAll(j, a), b)
    decreases |a|
  {
    if a == [] {
      assert a + b == b;
    } else {
      assert (a + b)[1..] == a[1..] + b;
      AppliedConcat(Applied(j, a[0]), a[1..], b);
    }
  }

  predicate PairwiseIncomparable(ops: seq<ConfigOp>) {
    forall i, k :: 0 <= i < k < |ops| ==> Incomparable(PathOf(ops[i]), PathOf(ops[k]))
  }

  function Without<T>(s: seq<T>, i: nat): seq<T>
    requires i < |s|
  {
    s[..i] + s[i + 1..]
  }

  lemma {:induction false} MoveToFront(j: Json, ops: seq<ConfigOp>, i: nat)
    requires PairwiseIncomparable(ops) && i < |ops|
    ensures AppliedAll(j, ops) == AppliedAll(Applied(j, ops[i]), Without(ops, i))
    decreases i
  {
    var rest := Without(ops, i);
    if i == 0 {
      assert rest == ops[1..];
    } else {
      assert rest[0] == ops[0] && rest[1..] == Without(ops[1..], i - 1);
      MoveToFront(Applied(j, ops[0]), ops[1..], i - 1);
      EditsCommute(j, PathOf(ops[0]), EditOf(ops[0]), PathOf(ops[i]), EditOf(ops[i]));
    }
  }

  lemma WithoutOne<T>(s: seq<T>, i: nat)
    requires i < |s|
    ensures multiset(s) == multiset(Without(s, i)) + multiset{s[i]}
  {
    assert s == s[..i] + ([s[i]] + s[i + 1..]);
  }

  lemma WithoutStaysIncomparable(ops: seq<ConfigOp>, i: nat)
    requires PairwiseIncomparable(ops) && i < |ops|
    ensures PairwiseIncomparable(Without(ops, i))
  {
  }

  /** Every permutation of operations at pairwise incomparable paths yields the same document. */
  lemma {:induction false} OrderDoesNotMatter(j: Json, a: seq<ConfigOp>, b: seq<ConfigOp>)
    requires PairwiseIncomparable(a) && multiset(a) == multiset(b)
    ensures AppliedAll(j, a) == AppliedAll(j, b)
    decreases |b|
  {
    if b == [] {
      assert |multiset(a)| == 0;
    } else {
      var i := PositionOf(a, b);
      MoveToFront(j, a, i);
      WithoutStaysIncomparable(a, i);
      OrderDoesNotMatter(Applied(j, b[0]), Without(a, i), b[1..]);
    }
  }

  lemma PositionOf<T>(a: seq<T>, b: seq<T>) returns (i: nat)
    requires multiset(a) == multiset(b) && b != []
    ensures i < |a| && a[i] == b[0] && multiset(Without(a, i)) == multiset(b[1..])
  {
    assert b[0] in multiset(b);
    i :| 0 <= i < |a| && a[i] == b[0];
    WithoutOne(a, i);
    WithoutOne(b, 0);
    assert Without(b, 0) == b[1..];
    assert multiset(Without(a, i)) == multiset(a) - multiset{b[0]};
    assert multiset(b[1..]) == multiset(b) - multiset{b[0]};
  }

  lemma {:induction false} ReadElsewhere(j: Json, ops: seq<ConfigOp>, q: Path)
    requires forall op :: op in ops ==> PathOf(op) == [] || Incomparable(PathOf(op), q)
    ensures Get(AppliedAll(j, ops), q) == Get(j, q)
    decreases |ops|
  {
    if ops != [] {
      ReadElsewhere(Applied(j, ops[0]), ops[1..], q);
      if PathOf(ops[0]) != [] {
        assert ops[0] in ops;
        GetElsewhere(j, PathOf(ops[0]), EditOf(ops[0]), q);
      }
    }
  }

  lemma AppliedAround(j: Json, ops: seq<ConfigOp>, i: nat)
    requires i < |ops|
    ensures AppliedAll(j, ops) == AppliedAll(Applied(AppliedAll(j, ops[..i]), ops[i]), ops[i + 1..])
  {
    var tail := [ops[i]] + ops[i + 1..];
    assert ops == ops[..i] + tail && tail[1..] == ops[i + 1..];
    AppliedConcat(j, ops[..i], tail);
  }

  /** The path of an operation reads what it wrote, when all later ones lie elsewhere. */
  lemma ReadWritten(j: Json, ops: seq<ConfigOp>, i: nat)
    requires i < |ops| && PathOf(ops[i]) != []
    requires forall k :: i < k < |ops| ==> Incomparable(PathOf(ops[k]), PathOf(ops[i]))
    ensures EditOf(ops[i]).Put? ==> Get(AppliedAll(j, ops), PathOf(ops[i])) == Some(EditOf(ops[i]).value)
    ensures EditOf(ops[i]).Drop? ==> Get(AppliedAll(j, ops), PathOf(ops[i])) == None
  {
    var before := AppliedAll(j, ops[..i]);
    AppliedAround(j, ops, i);
    GetEdited(before, PathOf(ops[i]), EditOf(ops[i]));
    forall op | op in ops[i + 1..]
      ensures Incomparable(PathOf(op), PathOf(ops[i]))
    {
      var k :| 0 <= k < |ops[i + 1..]| && ops[i + 1..][k] == op;
      assert op == ops[i + 1 + k];
    }
    ReadElsewhere(Applied(before, ops[i]), ops[i + 1..], PathOf(ops[i]));
  }

  /** What is absent stays absent under unsets, and under any operation elsewhere. */
  lemma {:induction false} AbsentStays(j: Json, ops: seq<ConfigOp>, q: Path)
    requires Get(j, q) == None
    requires forall op :: op in ops ==> EditOf(op).Drop? || Incomparable(PathOf(op), q)
    ensures Get(AppliedAll(j, ops), q) == None
    decreases |ops|
  {
    if ops != [] {
      assert ops[0] in ops;
      if EditOf(ops[0]).Drop? {
        DropKeepsAbsent(j, PathOf(ops[0]), q);
      } else {
        GetElsewhere(j, PathOf(ops[0]), EditOf(ops[0]), q);
      }
      AbsentStays(Applied(j, ops[0]), ops[1..], q);
    }
  }

  // ---- Reading sections ----

  /** The map at a path; anything that is not a map reads as nothing. */
  function NestedMap(m: Json, keys: Path): (r: Option<Object>) {
    match Get(m, keys)
    case Some(Obj(fields)) => Some(fields)
    case _ => None
  }

  /** A missing map reads as an empty one. */
  function FieldsAt(m: Json, keys: Path): Object {
    match Get(m, keys)
    case Some(Obj(fields)) => fields
    case _ => map[]
  }

  /** The value at a path; JSON null reads as absent. */
  function NestedValue(m: Json, keys: Path): Option<Json> {
    if Get(m, keys) == Some(Null) then None else Get(m, keys)
  }

  method GetNestedMap(m: Object, keys: seq<string>) returns (r: Option<Object>)
    ensures r == NestedMap(Obj(m), keys)
  {
    var current := m;
    for i := 0 to |keys|
      invariant Get(Obj(m), keys) == Get(Obj(current), keys[i..])
    {
      var k := keys[i];
      assert keys[i..][1..] == keys[i + 1..];
      if k !in current || !current[k].Obj? {
        GetThroughLeaf(Obj(current), keys[i..]);
        return None;
      }
      current := current[k].fields;
    }
    return Some(current);
  }

  lemma GetThroughLeaf(j: Json, p: Path)
    requires p != [] && (p[0] !in FieldsOf(j) || !FieldsOf(j)[p[0]].Obj?)
    ensures !(Get(j, p).Some? && Get(j, p).value.Obj?)
    ensures |p| > 1 ==> Get(j, p) == None
  {
  }

  method GetNestedValue(m: Object, keys: seq<string>) returns (r: Option<Json>)
    ensures keys == [] ==> r == None
    ensures keys != [] ==> r == NestedValue(Obj(m), keys)
  {
    if |keys| == 0 {
      return None;
    }
    var parent := GetNestedMap(m, keys[..|keys| - 1]);
    var last := keys[|keys| - 1];
    GetSnoc(Obj(m), keys[..|keys| - 1], last);
    assert keys[..|keys| - 1] + [last] == keys;
    if parent.None? || last !in parent.value || parent.value[last] == Null {
      return None;
    }
    return Some(parent.value[last]);
  }

  // ---- The diff ----

  predicate NoDuplicates<T(==)>(s: seq<T>) {
    forall i, k :: 0 <= i < k < |s| ==> s[i] != s[k]
  }

  /** `ops` lists the operations of `wanted`, each once, in any order. */
  ghost predicate Enumerates(ops: seq<ConfigOp>, wanted: set<ConfigOp>) {
    NoDuplicates(ops) && forall op :: op in ops <==> op in wanted
  }

  predicate Changed(was: Object, wants: Object, name: string) {
    name in wants && !(name in was && was[name] == wants[name])
  }

  predicate Removed(was: Object, wants: Object, name: string) {
    name in was && name !in wants
  }

  function UnsetNamed(prefix: string, name: string): ConfigOp {
    UnsetOp(prefix + "." + name)
  }

  function SetNamed(prefix: string, name: string, v: Json): ConfigOp {
    SetOp(prefix + "." + name, Strict(Some(v)), false)
  }

  function UnsetOps(was: Object, wants: Object, prefix: string, names: set<string>): set<ConfigOp> {
    set name | name in names && Removed(was, wants, name) :: UnsetNamed(prefix, name)
  }

  function SetOps(was: Object, wants: Object, prefix: string, names: set<string>): set<ConfigOp> {
    set name | name in names && Changed(was, wants, name) :: SetNamed(prefix, name, wants[name])
  }

  /** What a keyed section needs: names gone from the new map are unset, new or changed ones are set. */
  function KeyedOps(was: Object, wants: Object, prefix: string): set<ConfigOp> {
    UnsetOps(was, wants, prefix, was.Keys) + SetOps(was, wants, prefix, wants.Keys)
  }

  function ObjectOps(was: Option<Json>, wants: Option<Json>, path: string): seq<ConfigOp> {
    if wants.Some? then
      if was == wants then [] else [SetOp(path, Strict(wants), false)]
    else if was.Some? then [UnsetOp(path)]
    else []
  }

  function ReplaceOps(wants: Option<Object>, path: string): seq<ConfigOp> {
    if wants.Some? then [SetOp(path, Strict(Some(Obj(wants.value))), true)] else []
  }

  lemma PrefixedNames(prefix: string, a: string, b: string)
    ensures prefix + "." + a == prefix + "." + b ==> a == b
  {
    assert (prefix + "." + a)[|prefix| + 1..] == a && (prefix + "." + b)[|prefix| + 1..] == b;
  }

  lemma EnumeratesOneMore(ops: seq<ConfigOp>, wanted: set<ConfigOp>, op: ConfigOp)
    requires Enumerates(ops, wanted) && op !in wanted
    ensures Enumerates(ops + [op], wanted + {op})
  {
    assert forall x :: x in ops + [op] <==> x in ops || x == op;
  }

  lemma EnumeratesBoth(a: seq<ConfigOp>, wa: set<ConfigOp>, b: seq<ConfigOp>, wb: set<ConfigOp>)
    requires Enumerates(a, wa) && Enumerates(b, wb) && wa !! wb
    ensures Enumerates(a + b, wa + wb)
  {
    forall i, k | 0 <= i < k < |a + b|
      ensures (a + b)[i] != (a + b)[k]
    {
      if i < |a| <= k {
        assert a[i] in wa && b[k - |a|] in wb;
      }
    }
  }

  lemma OneMoreUnset(was: Object, wants: Object, prefix: string, names: set<string>, name: string)
    requires name !in names
    ensures UnsetOps(was, wants, prefix, names + {name}) ==
            UnsetOps(was, wants, prefix, names) +
            if Removed(was, wants, name) then {UnsetNamed(prefix, name)} else {}
    ensures UnsetNamed(prefix, name) !in UnsetOps(was, wants, prefix, names)
  {
    forall other | UnsetNamed(prefix, other) == UnsetNamed(prefix, name)
      ensures other == name
    {
      PrefixedNames(prefix, other, name);
    }
  }

  lemma OneMoreSet(was: Object, wants: Object, prefix: string, names: set<string>, name: string)
    requires name !in names && name in wants
    ensures SetOps(was, wants, prefix, names + {name}) ==
            SetOps(was, wants, prefix, names) +
            if Changed(was, wants, name) then {SetNamed(prefix, name, wants[name])} else {}
    ensures SetNamed(prefix, name, wants[name]) !in SetOps(was, wants, prefix, names)
  {
    forall other | other in wants && SetNamed(prefix, other, wants[other]) == SetNamed(prefix, name, wants[name])
      ensures other == name
    {
      PrefixedNames(prefix, other, name);
    }
  }

  /** No unset comes after a set. */
  predicate UnsetsBeforeSets(ops: seq<ConfigOp>) {
    forall i, k :: 0 <= i < k < |ops| && ops[i].SetOp? ==> !ops[k].UnsetOp?
  }

  /** The keyed diff; the two loops visit the names in any order. */
  method DiffKeyedSection(oldConfig: Object, newConfig: Object, pathPrefix: string, keys: seq<string>)
    returns (ops: seq<ConfigOp>)
    ensures Enumerates(ops, KeyedOps(FieldsAt(Obj(oldConfig), keys), FieldsAt(Obj(newConfig), keys), pathPrefix))
    ensures UnsetsBeforeSets(ops)
  {
    var oldMap, newMap := map[], map[];
    var found := GetNestedMap(oldConfig, keys);
    if found.Some? {
      oldMap := found.value;
    }
    found := GetNestedMap(newConfig, keys);
    if found.Some? {
      newMap := found.value;
    }

    ops := [];
    var todo := oldMap.Keys;
    while todo != {}
      invariant todo <= oldMap.Keys
      invariant Enumerates(ops, UnsetOps(oldMap, newMap, pathPrefix, oldMap.Keys - todo))
      invariant forall i :: 0 <= i < |ops| ==> !ops[i].SetOp?
    {
      var name :| name in todo;
      ghost var done := oldMap.Keys - todo;
      OneMoreUnset(oldMap, newMap, pathPrefix, done, name);
      if name !in newMap {
        EnumeratesOneMore(ops, UnsetOps(oldMap, newMap, pathPrefix, done), UnsetNamed(pathPrefix, name));
        ops := ops + [UnsetOp(pathPrefix + "." + name)];
      }
      todo := todo - {name};
      assert oldMap.Keys - todo == done + {name};
    }

    ghost var unsets := UnsetOps(oldMap, newMap, pathPrefix, oldMap.Keys);
    assert oldMap.Keys - todo == oldMap.Keys;
    todo := newMap.Keys;
    while todo != {}
      invariant todo <= newMap.Keys
      invariant Enumerates(ops, unsets + SetOps(oldMap, newMap, pathPrefix, newMap.Keys - todo))
      invariant UnsetsBeforeSets(ops)
    {
      var name :| name in todo;
      ghost var done := newMap.Keys - todo;
      OneMoreSet(oldMap, newMap, pathPrefix, done, name);
      if !(name in oldMap && oldMap[name] == newMap[name]) {
        var op := SetOp(pathPrefix + "." + name, Strict(Some(newMap[name])), false);
        EnumeratesOneMore(ops, unsets + SetOps(oldMap, newMap, pathPrefix, done), op);
        ops := ops + [op];
      }
      todo := todo - {name};
      assert newMap.Keys - todo == done + {name};
    }
    assert newMap.Keys - todo == newMap.Keys;
  }

  method DiffObjectSection(oldConfig: Object, newConfig: Object, path: string, keys: seq<string>)
    returns (ops: seq<ConfigOp>)
    requires keys != []
    ensures ops == ObjectOps(NestedValue(Obj(oldConfig), keys), NestedValue(Obj(newConfig), keys), path)
  {
    var newVal := GetNestedValue(newConfig, keys);
    var oldVal := GetNestedValue(oldConfig, keys);
    if newVal.Some? {
      if oldVal.Some? && oldVal.value == newVal.value {
        return [];
      }
      return [SetOp(path, Strict(Some(newVal.value)), false)];
    }
    if oldVal.Some? {
      return [UnsetOp(path)];
    }
    return [];
  }
}
