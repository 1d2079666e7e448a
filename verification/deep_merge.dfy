/** `deepMergeMap` and `deepCopyMap`. */
module DeepMerge {
  import opened Common
  import opened JsonTree

  /** Objects merge key by key; anything else is replaced by the overlay. */
  function Merged(base: Json, overlay: Json): Json
    decreases overlay
  {
    if base.Obj? && overlay.Obj? then
      Obj(map k | k in base.fields.Keys + overlay.fields.Keys ::
            if k !in overlay.fields then base.fields[k]
            else if k !in base.fields then overlay.fields[k]
            else Merged(base.fields[k], overlay.fields[k]))
    else
      overlay
  }

  method DeepCopyMap(m: Object) returns (result: Object)
    ensures result == m
    decreases Obj(m)
  {
    result := map[];
    var todo := m.Keys;
    while todo != {}
      invariant todo <= m.Keys
      invariant result == map k | k in m && k !in todo :: m[k]
    {
      var k :| k in todo;
      if m[k].Obj? {
        assert m[k] < Obj(m);
        var nested := DeepCopyMap(m[k].fields);
        result := result[k := Obj(nested)];
      } else {
        result := result[k := m[k]];
      }
      todo := todo - {k};
    }
  }

  /** The loop visits the overlay's keys in any order. */
  method DeepMergeMap(base: Object, overlay: Object) returns (result: Object)
    ensures Obj(result) == Merged(Obj(base), Obj(overlay))
    decreases Obj(overlay)
  {
    result := DeepCopyMap(base);
    ghost var goal := Merged(Obj(base), Obj(overlay)).fields;
    var todo := overlay.Keys;
    while todo != {}
      invariant todo <= overlay.Keys
      invariant forall k :: k in result <==> k in base || (k in overlay && k !in todo)
      invariant forall k :: k in result ==> result[k] == if k in todo then base[k] else goal[k]
    {
      var k :| k in todo;
      var ov := overlay[k];
      assert goal[k] == if k in base then Merged(base[k], ov) else ov;
      if k !in result {
        result := result[k := ov];
      } else if result[k].Obj? && ov.Obj? {
        assert ov < Obj(overlay);
        var merged := DeepMergeMap(result[k].fields, ov.fields);
        assert goal[k] == Obj(merged);
        result := result[k := Obj(merged)];
      } else {
        result := result[k := ov];
      }
      todo := todo - {k};
    }
    assert result == goal;
  }

  predicate Leaf(j: Json, p: Path, v: Json) {
    !v.Obj? && Get(j, p) == Some(v)
  }

  /** The overlay is made of objects down to a point on the path and has nothing there. */
  predicate LeavesAlone(overlay: Json, p: Path)
    decreases |p|
  {
    p != [] && overlay.Obj? && (p[0] in overlay.fields ==> LeavesAlone(overlay.fields[p[0]], p[1..]))
  }

  lemma {:induction false} OverlayLeafWins(base: Json, overlay: Json, p: Path, v: Json)
    requires Leaf(overlay, p, v)
    ensures Leaf(Merged(base, overlay), p, v)
    decreases |p|
  {
    if p != [] && base.Obj? {
      var k := p[0];
      if k in base.fields {
        OverlayLeafWins(base.fields[k], overlay.fields[k], p[1..], v);
      }
    }
  }

  lemma {:induction false} BaseIsKept(base: Json, overlay: Json, p: Path)
    requires LeavesAlone(overlay, p)
    ensures Get(Merged(base, overlay), p) == Get(base, p)
    decreases |p|
  {
    var k := p[0];
    if k in overlay.fields {
      if base.Obj? && k in base.fields {
        BaseIsKept(base.fields[k], overlay.fields[k], p[1..]);
      } else {
        NothingThere(overlay.fields[k], p[1..]);
      }
    }
  }

  lemma {:induction false} NothingThere(overlay: Json, p: Path)
    requires LeavesAlone(overlay, p)
    ensures Get(overlay, p) == None
    decreases |p|
  {
    if p[0] in overlay.fields {
      NothingThere(overlay.fields[p[0]], p[1..]);
    }
  }

  /** Every leaf of a merge, and nothing else: the overlay's leaves, and those base leaves that the overlay leaves alone. */
  lemma {:induction false} LeavesOfMerge(base: Json, overlay: Json, p: Path, v: Json)
    ensures Leaf(Merged(base, overlay), p, v) <==>
            Leaf(overlay, p, v) || (LeavesAlone(overlay, p) && Leaf(base, p, v))
    decreases |p|
  {
    if LeavesAlone(overlay, p) {
      BaseIsKept(base, overlay, p);
      NothingThere(overlay, p);
    } else if p != [] && base.Obj? && overlay.Obj? {
      var k := p[0];
      assert k in overlay.fields;
      if k in base.fields {
        LeavesOfMerge(base.fields[k], overlay.fields[k], p[1..], v);
      }
    }
  }

  lemma {:induction false} MergeWithItself(a: Json)
    ensures Merged(a, a) == a
    decreases a
  {
    if a.Obj? {
      forall k | k in a.fields
        ensures Merged(a.fields[k], a.fields[k]) == a.fields[k]
      {
        MergeWithItself(a.fields[k]);
      }
      assert Merged(a, a).fields == a.fields;
    }
  }

  /** Merging the same overlay again changes nothing. */
  lemma {:induction false} MergeAbsorbs(a: Json, b: Json)
    ensures Merged(Merged(a, b), b) == Merged(a, b)
    decreases b
  {
    if a.Obj? && b.Obj? {
      var m := Merged(a, b);
      forall k | k in m.fields
        ensures k in Merged(m, b).fields && Merged(m, b).fields[k] == m.fields[k]
      {
        if k in b.fields {
          if k in a.fields {
            MergeAbsorbs(a.fields[k], b.fields[k]);
          } else {
            MergeWithItself(b.fields[k]);
          }
        }
      }
      assert Merged(m, b).fields == m.fields;
    } else {
      MergeWithItself(b);
    }
  }

  /** An overlay without any leaf can still remove a base leaf: an empty object replaces it. */
  lemma EmptyObjectReplacesLeaf()
    ensures var base, overlay := Obj(map["k" := Num(5.0)]), Obj(map["k" := Obj(map[])]);
            && (forall p, v :: !Leaf(overlay, p, v))
            && Leaf(base, ["k"], Num(5.0)) && !Leaf(Merged(base, overlay), ["k"], Num(5.0))
  {
    var overlay := Obj(map["k" := Obj(map[])]);
    forall p: Path, v
      ensures !Leaf(overlay, p, v)
    {
      if p != [] && p[0] == "k" {
        assert Get(overlay, p) == Get(Obj(map[]), p[1..]);
      }
    }
    assert ["k"][1..] == [];
  }
}
