/** JSON documents (RFC 8259, section 3) and the path algebra behind
    `setNestedValue` and `unsetNestedValue`. */
module JsonTree {
  import opened Common

  datatype Json =
    | Null
    | Bool(flag: bool)
    | Num(number: real)
    | Str(text: string)
    | Arr(items: seq<Json>)
    | Obj(fields: map<string, Json>)

  type Object = map<string, Json>

  type Path = seq<string>

  /** What one config operation does at its path. `Touch` is a set whose value is not valid JSON:
      the parents are created before the parse error is found. */
  datatype Edit = Put(value: Json) | Drop | Touch

  /** The fields of an object; anything else counts as an object without fields. */
  function FieldsOf(j: Json): Object {
    if j.Obj? then j.fields else map[]
  }

  /** The child under `key`, `Null` when there is none. */
  function Child(j: Json, key: string): Json {
    if key in FieldsOf(j) then FieldsOf(j)[key] else Null
  }

  function Get(j: Json, p: Path): Option<Json>
    decreases |p|
  {
    if p == [] then Some(j)
    else if p[0] in FieldsOf(j) then Get(FieldsOf(j)[p[0]], p[1..])
    else None
  }

  function Edited(j: Json, p: Path, e: Edit): Json
    decreases |p|
  {
    if p == [] then
      if e.Put? then e.value else j
    else if e.Drop? && p[0] !in FieldsOf(j) then
      j
    else if |p| == 1 && e.Drop? then
      Obj(FieldsOf(j) - {p[0]})
    else if |p| == 1 && e.Touch? then
      Obj(FieldsOf(j))
    else
      Obj(FieldsOf(j)[p[0] := Edited(Child(j, p[0]), p[1..], e)])
  }

  predicate Incomparable(p: Path, q: Path) {
    !(p <= q) && !(q <= p)
  }

  lemma DivergencePoint(p: Path, q: Path) returns (k: nat)
    requires Incomparable(p, q)
    ensures k < |p| && k < |q| && p[k] != q[k]
  {
    k :| 0 <= k < |p| && k < |q| && p[k] != q[k];
  }

  lemma IncomparableTails(p: Path, q: Path)
    requires Incomparable(p, q) && p[0] == q[0]
    ensures Incomparable(p[1..], q[1..])
  {
    var k := DivergencePoint(p, q);
    assert p[1..][k - 1] != q[1..][k - 1];
  }

  /** Extending two incomparable paths keeps them incomparable. */
  lemma IncomparableExtend(p: Path, q: Path, x: Path, y: Path)
    requires Incomparable(p, q)
    ensures Incomparable(p + x, q + y)
  {
    var k := DivergencePoint(p, q);
    assert (p + x)[k] != (q + y)[k];
  }

  /** Reading back what an edit wrote. */
  lemma {:induction false} GetEdited(j: Json, p: Path, e: Edit)
    requires p != []
    ensures e.Put? ==> Get(Edited(j, p, e), p) == Some(e.value)
    ensures e.Drop? ==> Get(Edited(j, p, e), p) == None
    ensures e.Touch? ==> Get(Edited(j, p, e), p) == Get(j, p)
    decreases |p|
  {
    if |p| > 1 {
      GetEdited(Child(j, p[0]), p[1..], e);
    }
  }

  /** An edit changes nothing at a path incomparable to its own. */
  lemma {:induction false} GetElsewhere(j: Json, p: Path, e: Edit, q: Path)
    requires Incomparable(p, q)
    ensures Get(Edited(j, p, e), q) == Get(j, q)
    decreases |p|
  {
    if p[0] == q[0] {
      IncomparableTails(p, q);
      GetElsewhere(Child(j, p[0]), p[1..], e, q[1..]);
    }
  }

  /** An unset makes nothing appear anywhere. */
  lemma {:induction false} DropKeepsAbsent(j: Json, p: Path, q: Path)
    requires Get(j, q) == None
    ensures Get(Edited(j, p, Drop), q) == None
    decreases |p|
  {
    if |p| > 1 && p[0] == q[0] && p[0] in FieldsOf(j) {
      DropKeepsAbsent(Child(j, p[0]), p[1..], q[1..]);
    }
  }

  /** An edit touches no sibling of the first segment of its path. */
  lemma EditKeepsSiblings(j: Json, p: Path, e: Edit, key: string)
    requires p != [] && key != p[0]
    ensures key in FieldsOf(Edited(j, p, e)) <==> key in FieldsOf(j)
    ensures Child(Edited(j, p, e), key) == Child(j, key)
  {
  }

  /** What an edit leaves under the first segment depends only on what was there. */
  lemma EditIsLocal(j: Json, k: Json, p: Path, e: Edit)
    requires p != [] && (p[0] in FieldsOf(j) <==> p[0] in FieldsOf(k)) && Child(j, p[0]) == Child(k, p[0])
    ensures p[0] in FieldsOf(Edited(j, p, e)) <==> p[0] in FieldsOf(Edited(k, p, e))
    ensures Child(Edited(j, p, e), p[0]) == Child(Edited(k, p, e), p[0])
  {
  }

  lemma SameFields(a: Json, b: Json)
    requires a.Obj? == b.Obj? && (!a.Obj? ==> a == b)
    requires forall key :: key in FieldsOf(a) <==> key in FieldsOf(b)
    requires forall key :: key in FieldsOf(a) ==> Child(a, key) == Child(b, key)
    ensures a == b
  {
    if a.Obj? {
      assert FieldsOf(a) == a.fields && FieldsOf(b) == b.fields;
      assert forall key | key in a.fields :: a.fields[key] == Child(a, key) == b.fields[key];
      assert a.fields == b.fields;
    }
  }

  lemma DistinctHeadsCommute(j: Json, p: Path, e: Edit, q: Path, f: Edit)
    requires p != [] && q != [] && p[0] != q[0]
    ensures Edited(Edited(j, p, e), q, f) == Edited(Edited(j, q, f), p, e)
  {
    var jp, jq := Edited(j, p, e), Edited(j, q, f);
    var a, b := Edited(jp, q, f), Edited(jq, p, e);
    forall key
      ensures (key in FieldsOf(a) <==> key in FieldsOf(b)) && Child(a, key) == Child(b, key)
    {
      if key != p[0] {
        EditKeepsSiblings(jq, p, e, key);
        EditKeepsSiblings(j, p, e, key);
      }
      if key != q[0] {
        EditKeepsSiblings(jp, q, f, key);
        EditKeepsSiblings(j, q, f, key);
      }
      if key == q[0] {
        EditIsLocal(jp, j, q, f);
      }
      if key == p[0] {
        EditIsLocal(jq, j, p, e);
      }
    }
    SameFields(a, b);
  }

  /** Edits at incomparable paths commute exactly: the two orders give the same document,
      created parents included. */
  lemma {:induction false} EditsCommute(j: Json, p: Path, e: Edit, q: Path, f: Edit)
    requires Incomparable(p, q)
    ensures Edited(Edited(j, p, e), q, f) == Edited(Edited(j, q, f), p, e)
    decreases |p|
  {
    if p[0] == q[0] {
      IncomparableTails(p, q);
      EditsCommute(Child(j, p[0]), p[1..], e, q[1..], f);
      SameHeadCommutes(j, p, e, q, f);
    } else {
      DistinctHeadsCommute(j, p, e, q, f);
    }
  }

  /** An edit below a child, unless it drops from a child that is not there. */
  lemma HeadEdited(j: Json, p: Path, e: Edit)
    requires |p| > 1 && (p[0] in FieldsOf(j) || !e.Drop?)
    ensures Edited(j, p, e) == Obj(FieldsOf(j)[p[0] := Edited(Child(j, p[0]), p[1..], e)])
  {
  }

  lemma HeadTwice(j: Json, p: Path, e: Edit, q: Path, f: Edit)
    requires |p| > 1 && |q| > 1 && p[0] == q[0] && (p[0] in FieldsOf(j) || !e.Drop?)
    ensures Edited(Edited(j, p, e), q, f)
            == Obj(FieldsOf(j)[p[0] := Edited(Edited(Child(j, p[0]), p[1..], e), q[1..], f)])
  {
    HeadEdited(j, p, e);
    var once := Obj(FieldsOf(j)[p[0] := Edited(Child(j, p[0]), p[1..], e)]);
    HeadEdited(once, q, f);
    var twice := Edited(Child(once, q[0]), q[1..], f);
    assert once.fields[p[0] := twice] == FieldsOf(j)[p[0] := twice];
  }

  lemma SameHeadCommutes(j: Json, p: Path, e: Edit, q: Path, f: Edit)
    requires |p| > 1 && |q| > 1 && p[0] == q[0]
    requires var c := Child(j, p[0]);
             Edited(Edited(c, p[1..], e), q[1..], f) == Edited(Edited(c, q[1..], f), p[1..], e)
    ensures Edited(Edited(j, p, e), q, f) == Edited(Edited(j, q, f), p, e)
  {
    if p[0] in FieldsOf(j) || (!e.Drop? && !f.Drop?) {
      HeadTwice(j, p, e, q, f);
      HeadTwice(j, q, f, p, e);
    } else if e.Drop? {
      DroppedBesideNothing(j, p, q, f);
    } else {
      DroppedBesideNothing(j, q, p, e);
    }
  }

  /** An unset below a child that is not there leaves what another edit makes of that child. */
  lemma DroppedBesideNothing(j: Json, p: Path, q: Path, f: Edit)
    requires |p| > 1 && |q| > 1 && p[0] == q[0] && p[0] !in FieldsOf(j)
    requires Edited(Edited(Null, p[1..], Drop), q[1..], f) == Edited(Edited(Null, q[1..], f), p[1..], Drop)
    ensures Edited(Edited(j, p, Drop), q, f) == Edited(Edited(j, q, f), p, Drop)
  {
    assert Edited(Null, p[1..], Drop) == Null && Edited(j, p, Drop) == j;
    if !f.Drop? {
      var made := Obj(FieldsOf(j)[p[0] := Edited(Null, q[1..], f)]);
      assert Edited(j, q, f) == made;
      assert Edited(made, p, Drop) == Obj(made.fields[p[0] := Edited(Child(made, p[0]), p[1..], Drop)]);
    }
  }

  /** Reading one segment further. */
  lemma {:induction false} GetSnoc(j: Json, p: Path, key: string)
    ensures Get(j, p + [key]) ==
            match Get(j, p)
            case None => None
            case Some(v) => if key in FieldsOf(v) then Some(FieldsOf(v)[key]) else None
    decreases |p|
  {
    if p == [] {
      assert p + [key] == [key];
    } else {
      assert (p + [key])[1..] == p[1..] + [key];
      if p[0] in FieldsOf(j) {
        GetSnoc(FieldsOf(j)[p[0]], p[1..], key);
      }
    }
  }

  /** A root object stays an object. */
  lemma EditedObject(j: Json, p: Path, e: Edit)
    requires j.Obj? && p != []
    ensures Edited(j, p, e).Obj?
  {
  }
}
