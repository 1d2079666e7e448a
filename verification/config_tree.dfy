/** `setNestedValue` and `unsetNestedValue` on maps that are changed in place. */
module ConfigTree {
  import opened Common
  import opened JsonTree
  import opened DotPath

  /** One map of a decoded document. */
  class Node {
    var entries: map<string, Slot>

    constructor ()
      ensures entries == map[]
    {
      entries := map[];
    }
  }

  /** An entry is a map of its own, or a value without fields. */
  datatype Slot = Leaf(value: Json) | Sub(node: Node)

  // ---- The document a tree of maps stands for ----

  predicate IsObjAt(doc: Json, p: Path) {
    Get(doc, p).Some? && Get(doc, p).value.Obj?
  }

  ghost predicate SlotTies(s: Slot, v: Json, at: map<Path, Node>, p: Path) {
    match s
    case Leaf(x) => !v.Obj? && x == v
    case Sub(n) => v.Obj? && p in at && at[p] == n
  }

  ghost predicate NodeTies(n: Node, fields: Object, at: map<Path, Node>, p: Path)
    reads n
  {
    n.entries.Keys == fields.Keys && forall k :: k in fields ==> SlotTies(n.entries[k], fields[k], at, p + [k])
  }

  ghost predicate Injective(at: map<Path, Node>) {
    forall p, q :: p in at && q in at && at[p] == at[q] ==> p == q
  }

  /** `at` holds the map at every path where the document has an object, each map once. */
  ghost predicate Ties(at: map<Path, Node>, doc: Json)
    reads at.Values
  {
    && (forall p :: p in at <==> IsObjAt(doc, p))
    && Injective(at)
    && forall p :: p in at ==> NodeTies(at[p], Get(doc, p).value.fields, at, p)
  }

  /** The same, but for what the map at `q` holds. */
  ghost predicate TiesBut(at: map<Path, Node>, doc: Json, q: Path)
    reads set p | p in at && p != q :: at[p]
  {
    && (forall p :: p in at <==> IsObjAt(doc, p))
    && Injective(at)
    && forall p :: p in at && p != q ==> NodeTies(at[p], Get(doc, p).value.fields, at, p)
  }

  lemma TiesWithTheLast(at: map<Path, Node>, doc: Json, q: Path)
    requires TiesBut(at, doc, q) && q in at && IsObjAt(doc, q) && NodeTies(at[q], Get(doc, q).value.fields, at, q)
    ensures Ties(at, doc)
  {
  }

  /** A put, or a drop of a key that is there. */
  predicate Effective(doc: Json, q: Path, key: string, e: Edit) {
    IsObjAt(doc, q) && (e.Put? || (e.Drop? && key in Get(doc, q).value.fields))
  }

  function FieldsAfter(fields: Object, key: string, e: Edit): Object {
    if e.Put? then fields[key := e.value] else fields - {key}
  }

  /** What an edit of an existing map does to the document at any path. */
  lemma {:induction false} EditBelow(doc: Json, q: Path, key: string, e: Edit, p: Path)
    requires Effective(doc, q, key, e)
    ensures var w := q + [key]; var after := Edited(doc, w, e);
            if w <= p then Get(after, p) == if e.Put? then Get(e.value, p[|w|..]) else None
            else if p <= q then
              && IsObjAt(doc, p) && IsObjAt(after, p)
              && var was, now := Get(doc, p).value.fields, Get(after, p).value.fields;
                 if p == q then now == FieldsAfter(was, key, e)
                 else q[|p|] in was && now.Keys == was.Keys && now[q[|p|]].Obj? && was[q[|p|]].Obj?
                      && forall k :: k in was && k != q[|p|] ==> now[k] == was[k]
            else Get(after, p) == Get(doc, p)
    decreases |q|
  {
    var w := q + [key];
    if q == [] {
      assert w == [key] && w[1..] == [];
      if w <= p {
        assert p[0] == key;
      } else if p != [] {
        assert p[0] != key;
      }
    } else {
      var child := FieldsOf(doc)[q[0]];
      assert w[0] == q[0] && w[1..] == q[1..] + [key];
      if p != [] && p[0] == q[0] {
        EditBelow(child, q[1..], key, e, p[1..]);
        assert w <= p <==> w[1..] <= p[1..];
        assert p <= q <==> p[1..] <= q[1..];
        if w <= p {
          assert p[|w|..] == p[1..][|w[1..]|..];
        }
      } else if p == [] {
        EditBelow(child, q[1..], key, e, []);
      }
    }
  }

  /** The maps after the ones at and below `w` were replaced by those of another document. */
  ghost function Grafted(at: map<Path, Node>, w: Path, sub: map<Path, Node>): map<Path, Node> {
    map p | p in at.Keys + (set s | s in sub :: w + s) && (w <= p ==> p[|w|..] in sub) ::
      if w <= p then sub[p[|w|..]] else at[p]
  }

  lemma GraftedAt(at: map<Path, Node>, w: Path, sub: map<Path, Node>, p: Path)
    ensures p in Grafted(at, w, sub) <==> if w <= p then p[|w|..] in sub else p in at
    ensures p in Grafted(at, w, sub) ==> Grafted(at, w, sub)[p] == if w <= p then sub[p[|w|..]] else at[p]
    ensures p in Grafted(at, w, sub) ==> Grafted(at, w, sub)[p] in if w <= p then sub.Values else at.Values
  {
    if w <= p && p[|w|..] in sub {
      assert p == w + p[|w|..];
    }
  }

  /** The slot an edit writes, if it writes one, and the maps below it. */
  ghost predicate Holds(slot: Option<Slot>, sub: map<Path, Node>, e: Edit)
    reads sub.Values
  {
    match e
    case Put(v) =>
      && slot.Some?
      && if slot.value.Leaf? then !v.Obj? && slot.value.value == v && sub == map[]
         else Ties(sub, v) && [] in sub && sub[[]] == slot.value.node
    case Drop => slot.None? && sub == map[]
    case Touch => false
  }

  lemma GraftedIsInjective(at: map<Path, Node>, w: Path, sub: map<Path, Node>)
    requires Injective(at) && Injective(sub) && at.Values !! sub.Values
    ensures Injective(Grafted(at, w, sub))
  {
    var g := Grafted(at, w, sub);
    forall p, q | p in g && q in g && g[p] == g[q]
      ensures p == q
    {
      GraftedAt(at, w, sub, p);
      GraftedAt(at, w, sub, q);
      if w <= p && w <= q {
        assert p == w + p[|w|..] && q == w + q[|w|..];
      }
    }
  }

  lemma LeafHasNoMaps(v: Json, p: Path)
    requires !v.Obj?
    ensures !IsObjAt(v, p)
  {
  }

  lemma HeldMaps(slot: Option<Slot>, sub: map<Path, Node>, e: Edit, p: Path)
    requires Holds(slot, sub, e)
    ensures p in sub <==> e.Put? && IsObjAt(e.value, p)
  {
    if slot.Some? && slot.value.Leaf? {
      LeafHasNoMaps(e.value, p);
    }
  }

  /** Below a slot, and not at it, means below it one segment earlier. */
  lemma BelowOneEarlier(q: Path, key: string, p: Path, k: string)
    ensures q + [key] <= p + [k] ==> q + [key] <= p || (p == q && k == key)
  {
    var w, r := q + [key], p + [k];
    if w <= r {
      if |w| == |r| {
        assert w == r && q == w[..|q|] && p == r[..|p|] && key == w[|q|] && k == r[|p|];
      } else {
        assert p == r[..|p|] && w == r[..|w|] == p[..|w|];
      }
    }
  }

  /** Making a missing parent first does not change where an edit below it leads. */
  lemma {:induction false} MakingParents(doc: Json, q: Path, key: string, rest: Path, e: Edit)
    requires IsObjAt(doc, q) && !IsObjAt(doc, q + [key]) && rest != [] && !e.Drop?
    ensures Edited(Edited(doc, q + [key], Put(Obj(map[]))), q + [key] + rest, e) == Edited(doc, q + [key] + rest, e)
    decreases |q|
  {
    var w := q + [key];
    if q == [] {
      assert w == [key];
      MakingOne(doc, key, rest, e);
    } else {
      var child := FieldsOf(doc)[q[0]];
      assert w[0] == q[0] && w[1..] == q[1..] + [key] && (w + rest)[1..] == q[1..] + [key] + rest;
      MakingParents(child, q[1..], key, rest, e);
    }
  }

  lemma MakingOne(doc: Json, key: string, rest: Path, e: Edit)
    requires doc.Obj? && !IsObjAt(doc, [key]) && rest != [] && !e.Drop?
    ensures Edited(Edited(doc, [key], Put(Obj(map[]))), [key] + rest, e) == Edited(doc, [key] + rest, e)
  {
    var p := [key] + rest;
    assert p[0] == key && p[1..] == rest;
    assert [key][0] == key && [key][1..] == [];
    GetOne(doc, key);
    EmptyParent(Child(doc, key), rest, e);
    var made := Obj(doc.fields[key := Obj(map[])]);
    assert Edited(doc, [key], Put(Obj(map[]))) == made;
    assert Edited(made, p, e) == Obj(made.fields[key := Edited(Obj(map[]), rest, e)]);
    assert Edited(doc, p, e) == Obj(doc.fields[key := Edited(Child(doc, key), rest, e)]);
  }

  lemma GetOne(doc: Json, key: string)
    ensures Get(doc, [key]) == if key in FieldsOf(doc) then Some(FieldsOf(doc)[key]) else None
  {
    assert [key][1..] == [];
  }

  /** Anything that is not an object takes edits like an empty one. */
  lemma EmptyParent(j: Json, rest: Path, e: Edit)
    requires !j.Obj? && rest != [] && !e.Drop?
    ensures Edited(j, rest, e) == Edited(Obj(map[]), rest, e)
  {
  }

  /** A set without a value changes nothing once the parents are there. */
  lemma {:induction false} TouchIsDone(doc: Json, q: Path, key: string)
    requires IsObjAt(doc, q)
    ensures Edited(doc, q + [key], Touch) == doc
    decreases |q|
  {
    var w := q + [key];
    if q == [] {
      assert w == [key];
    } else {
      assert w[0] == q[0] && w[1..] == q[1..] + [key];
      TouchIsDone(FieldsOf(doc)[q[0]], q[1..], key);
    }
  }

  /** Dropping below something that is not an object, or a key that is not there, changes nothing. */
  lemma {:induction false} NothingToDrop(doc: Json, p: Path, i: nat)
    requires i < |p| && IsObjAt(doc, p[..i])
    requires if i + 1 < |p| then !IsObjAt(doc, p[..i + 1]) else p[i] !in Get(doc, p[..i]).value.fields
    ensures Edited(doc, p, Drop) == doc
    decreases i
  {
    if i == 0 {
      assert p[..0] == [] && p[..1] == [p[0]];
      GetOne(doc, p[0]);
      if p[0] in FieldsOf(doc) {
        assert p[1] !in FieldsOf(FieldsOf(doc)[p[0]]) && p[1..][0] == p[1];
      }
    } else {
      var child := FieldsOf(doc)[p[0]];
      assert p[..i][1..] == p[1..][..i - 1] && p[..i][0] == p[0];
      if i + 1 < |p| {
        assert p[..i + 1][1..] == p[1..][..i] && p[..i + 1][0] == p[0];
      }
      NothingToDrop(child, p[1..], i - 1);
    }
  }

  lemma CutAt(p: Path, i: nat)
    requires i < |p|
    ensures p[..i + 1] == p[..i] + [p[i]] && p == p[..i] + [p[i]] + p[i + 1..]
    ensures i + 1 == |p| ==> p == p[..i] + [p[i]]
  {
  }

  function EntriesAfter(entries: map<string, Slot>, key: string, slot: Option<Slot>): map<string, Slot> {
    if slot.Some? then entries[key := slot.value] else entries - {key}
  }

  /** A decoded document: maps that hold maps. `doc` is the document it stands for, `at` its maps by path. */
  class Tree {
    const root: Node
    ghost var at: map<Path, Node>
    ghost var doc: Json

    ghost predicate Valid()
      reads this, at.Values
    {
      [] in at && at[[]] == root && Ties(at, doc)
    }

    constructor ()
      ensures Valid() && doc == Obj(map[]) && fresh(at.Values)
    {
      root := new Node();
      new;
      at := map[[] := root];
      doc := Obj(map[]);
      forall p
        ensures p in at <==> IsObjAt(doc, p)
      {
      }
    }

    // ---- One entry of one map ----

    /** A path that neither is the changed map nor lies below the slot keeps its map and its entries' meaning. */
    lemma OtherNodeTies(q: Path, key: string, e: Edit, sub: map<Path, Node>, p: Path)
      requires Valid() && Effective(doc, q, key, e) && p in at && p != q && !(q + [key] <= p)
      ensures var after := Edited(doc, q + [key], e);
              IsObjAt(after, p) && NodeTies(at[p], Get(after, p).value.fields, Grafted(at, q + [key], sub), p)
    {
      var w := q + [key];
      var after := Edited(doc, w, e);
      EditBelow(doc, q, key, e, p);
      var was, now := Get(doc, p).value.fields, Get(after, p).value.fields;
      assert NodeTies(at[p], was, at, p);
      forall k | k in now
        ensures SlotTies(at[p].entries[k], now[k], Grafted(at, w, sub), p + [k])
      {
        assert SlotTies(at[p].entries[k], was[k], at, p + [k]);
        BelowOneEarlier(q, key, p, k);
        GraftedAt(at, w, sub, p + [k]);
      }
    }

    /** The changed map ties to the changed object. */
    lemma ChangedNodeTies(q: Path, key: string, e: Edit, slot: Option<Slot>, sub: map<Path, Node>, entries: map<string, Slot>)
      requires Valid() && q in at && Effective(doc, q, key, e) && Holds(slot, sub, e)
      requires entries == EntriesAfter(at[q].entries, key, slot)
      ensures var after := Edited(doc, q + [key], e);
              && IsObjAt(after, q) && entries.Keys == Get(after, q).value.fields.Keys
              && forall k :: k in entries ==>
                   SlotTies(entries[k], Get(after, q).value.fields[k], Grafted(at, q + [key], sub), q + [k])
    {
      var w := q + [key];
      EditBelow(doc, q, key, e, q);
      var was := Get(doc, q).value.fields;
      assert NodeTies(at[q], was, at, q);
      forall k | k in entries
        ensures SlotTies(entries[k], FieldsAfter(was, key, e)[k], Grafted(at, w, sub), q + [k])
      {
        GraftedAt(at, w, sub, q + [k]);
        if k != key {
          assert SlotTies(at[q].entries[k], was[k], at, q + [k]);
          assert (q + [k])[|q|] != w[|q|];
        } else {
          assert (q + [k])[|w|..] == [];
        }
      }
    }

    /** The maps below the slot tie to the value that was put there. */
    lemma BelowTies(q: Path, key: string, e: Edit, slot: Option<Slot>, sub: map<Path, Node>, p: Path)
      requires Valid() && Effective(doc, q, key, e) && Holds(slot, sub, e) && q + [key] <= p && p[|q| + 1..] in sub
      ensures var after := Edited(doc, q + [key], e);
              IsObjAt(after, p) && NodeTies(sub[p[|q| + 1..]], Get(after, p).value.fields, Grafted(at, q + [key], sub), p)
    {
      var w := q + [key];
      var s := p[|w|..];
      EditBelow(doc, q, key, e, p);
      var fields := Get(e.value, s).value.fields;
      assert NodeTies(sub[s], fields, sub, s);
      forall k | k in fields
        ensures SlotTies(sub[s].entries[k], fields[k], Grafted(at, w, sub), p + [k])
      {
        assert SlotTies(sub[s].entries[k], fields[k], sub, s + [k]);
        assert (p + [k])[|w|..] == s + [k] && w <= p + [k];
        GraftedAt(at, w, sub, p + [k]);
      }
    }

    /** Which paths hold maps after the edit. */
    lemma MapsAfter(q: Path, key: string, e: Edit, slot: Option<Slot>, sub: map<Path, Node>, p: Path)
      requires Valid() && Effective(doc, q, key, e) && Holds(slot, sub, e)
      ensures p in Grafted(at, q + [key], sub) <==> IsObjAt(Edited(doc, q + [key], e), p)
    {
      GraftedAt(at, q + [key], sub, p);
      EditBelow(doc, q, key, e, p);
      if q + [key] <= p {
        HeldMaps(slot, sub, e, p[|q| + 1..]);
      }
    }

    /** All maps but the changed one, with respect to the document after the edit. */
    lemma UnchangedNodesTie(q: Path, key: string, e: Edit, slot: Option<Slot>, sub: map<Path, Node>, p: Path)
      requires Valid() && q in at && Effective(doc, q, key, e) && Holds(slot, sub, e) && at.Values !! sub.Values
      requires p in Grafted(at, q + [key], sub) && p != q
      ensures var g, after := Grafted(at, q + [key], sub), Edited(doc, q + [key], e);
              IsObjAt(after, p) && NodeTies(g[p], Get(after, p).value.fields, g, p) && g[p] != at[q]
    {
      GraftedAt(at, q + [key], sub, p);
      if q + [key] <= p {
        BelowTies(q, key, e, slot, sub, p);
        assert at[q] in at.Values;
      } else {
        OtherNodeTies(q, key, e, sub, p);
      }
    }

    /** What has to hold of the other maps for the change to keep the tree right. */
    lemma OthersStayRight(q: Path, key: string, e: Edit, slot: Option<Slot>, sub: map<Path, Node>)
      requires Valid() && q in at && Effective(doc, q, key, e) && Holds(slot, sub, e) && at.Values !! sub.Values
      ensures var g, after := Grafted(at, q + [key], sub), Edited(doc, q + [key], e);
              TiesBut(g, after, q) && [] in g && g[[]] == root && q in g && g[q] == at[q]
    {
      var g, after := Grafted(at, q + [key], sub), Edited(doc, q + [key], e);
      forall p
        ensures p in g <==> IsObjAt(after, p)
      {
        MapsAfter(q, key, e, slot, sub, p);
      }
      GraftedIsInjective(at, q + [key], sub);
      forall p | p in g && p != q
        ensures NodeTies(g[p], Get(after, p).value.fields, g, p) && g[p] != at[q]
      {
        UnchangedNodesTie(q, key, e, slot, sub, p);
      }
      GraftedAt(at, q + [key], sub, q);
      GraftedAt(at, q + [key], sub, []);
    }

    /** Writes or deletes one entry of one map, in place. */
    method Change(current: Node, key: string, slot: Option<Slot>, ghost q: Path, ghost e: Edit, ghost sub: map<Path, Node>)
      requires Valid() && q in at && at[q] == current && Effective(doc, q, key, e)
      requires Holds(slot, sub, e) && at.Values !! sub.Values
      modifies this, current
      ensures Valid() && doc == Edited(old(doc), q + [key], e) && at == Grafted(old(at), q + [key], sub)
      ensures q in at && at[q] == current
    {
      ghost var g, after := Grafted(at, q + [key], sub), Edited(doc, q + [key], e);
      OthersStayRight(q, key, e, slot, sub);
      ChangedNodeTies(q, key, e, slot, sub, EntriesAfter(current.entries, key, slot));
      WriteEntry(current, key, slot, q, g, after);
    }

    /** The write itself, once everything else is known to fit the new document. */
    method WriteEntry(current: Node, key: string, slot: Option<Slot>, ghost q: Path, ghost g: map<Path, Node>, ghost after: Json)
      requires TiesBut(g, after, q) && [] in g && g[[]] == root && q in g && g[q] == current && IsObjAt(after, q)
      requires var (entries, fields) := (EntriesAfter(current.entries, key, slot), Get(after, q).value.fields);
               entries.Keys == fields.Keys && forall k :: k in entries ==> SlotTies(entries[k], fields[k], g, q + [k])
      modifies this, current
      ensures Valid() && at == g && doc == after
    {
      NotElsewhere(g, after, q);
      if slot.Some? {
        current.entries := current.entries[key := slot.value];
      } else {
        current.entries := current.entries - {key};
      }
      assert NodeTies(current, Get(after, q).value.fields, g, q);
      TiesWithTheLast(g, after, q);
      at, doc := g, after;
    }

    lemma NotElsewhere(g: map<Path, Node>, after: Json, q: Path)
      requires TiesBut(g, after, q) && q in g
      ensures g[q] !in (set p | p in g && p != q :: g[p])
    {
    }

    // ---- The two operations ----

    /** A map that is missing under `key`, made. */
    method MakeChild(current: Node, key: string, ghost q: Path) returns (next: Node)
      requires Valid() && q in at && at[q] == current
      modifies this, current
      ensures Valid() && q + [key] in at && at[q + [key]] == next && fresh(at.Values - old(at.Values))
      ensures doc == Edited(old(doc), q + [key], Put(Obj(map[])))
    {
      next := new Node();
      ghost var sub: map<Path, Node> := map[[] := next];
      EmptyTies(next, sub);
      Change(current, key, Some(Sub(next)), q, Put(Obj(map[])), sub);
      GraftedAt(old(at), q + [key], sub, q + [key]);
      GraftedValues(old(at), q + [key], sub);
    }

    /** One step of the walk to the parent: into the map under `key`, which is made if there is none. */
    method Descend(current: Node, key: string, ghost q: Path, ghost rest: Path, ghost e: Edit) returns (next: Node)
      requires Valid() && q in at && at[q] == current && rest != [] && !e.Drop?
      modifies this, current
      ensures Valid() && q + [key] in at && at[q + [key]] == next && fresh(at.Values - old(at.Values))
      ensures Edited(doc, q + [key] + rest, e) == old(Edited(doc, q + [key] + rest, e))
    {
      SubIsThere(current, key, q);
      if key in current.entries && current.entries[key].Sub? {
        return current.entries[key].node;
      }
      MakingParents(doc, q, key, rest, e);
      next := MakeChild(current, key, q);
    }

    /** The map that holds the last segment, with the maps on the way made where they are missing. */
    method Parent(parts: seq<string>, ghost e: Edit) returns (current: Node)
      requires Valid() && parts != [] && !e.Drop?
      modifies this, at.Values
      ensures Valid() && fresh(at.Values - old(at.Values))
      ensures parts[..|parts| - 1] in at && at[parts[..|parts| - 1]] == current
      ensures Edited(doc, parts, e) == Edited(old(doc), parts, e)
    {
      current := root;
      assert parts[..0] == [];
      for i := 0 to |parts| - 1
        invariant Valid() && parts[..i] in at && at[parts[..i]] == current && fresh(at.Values - old(at.Values))
        invariant Edited(doc, parts, e) == Edited(old(doc), parts, e)
      {
        var key := parts[i];
        CutAt(parts, i);
        current := Descend(current, key, parts[..i], parts[i + 1..], e);
      }
    }

    /** Sets a value at a dotted path, making the maps on the way. `slot` is the decoded value, or nothing when the
        text is not valid JSON: the parents are made before that is found. */
    method SetNestedValue(path: string, slot: Option<Slot>, ghost e: Edit, ghost sub: map<Path, Node>) returns (err: bool)
      requires Valid() && (if slot.None? then e == Touch && sub == map[] else Holds(slot, sub, e))
      requires at.Values !! sub.Values
      modifies this, at.Values
      ensures Valid() && (err <==> Segments(path) == [] || slot.None?)
      ensures doc == if Segments(path) == [] then old(doc) else Edited(old(doc), Segments(path), e)
    {
      var parts := SplitDotPath(path);
      if |parts| == 0 {
        return true;
      }
      var current := Parent(parts, e);
      CutAt(parts, |parts| - 1);
      err := SetLast(current, parts[|parts| - 1], slot, parts[..|parts| - 1], e, sub);
    }

    /** The last step: the entry itself, unless its value did not decode. */
    method SetLast(current: Node, lastKey: string, slot: Option<Slot>, ghost q: Path, ghost e: Edit, ghost sub: map<Path, Node>)
      returns (err: bool)
      requires Valid() && q in at && at[q] == current && at.Values !! sub.Values
      requires if slot.None? then e == Touch && sub == map[] else Holds(slot, sub, e)
      modifies this, current
      ensures Valid() && err == slot.None? && doc == Edited(old(doc), q + [lastKey], e)
    {
      if slot.None? {
        TouchIsDone(doc, q, lastKey);
        return true;
      }
      Change(current, lastKey, slot, q, e, sub);
      return false;
    }

    /** Removes the value at a dotted path, if it is there. */
    method UnsetNestedValue(path: string)
      requires Valid()
      modifies this, at.Values
      ensures Valid()
      ensures doc == if Segments(path) == [] then old(doc) else Edited(old(doc), Segments(path), Drop)
    {
      var parts := SplitDotPath(path);
      if |parts| == 0 {
        return;
      }
      var current := root;
      var n := |parts| - 1;
      assert parts[..0] == [];
      for i := 0 to n
        invariant Valid() && parts[..i] in at && at[parts[..i]] == current && doc == old(doc) && at == old(at)
      {
        var key := parts[i];
        CutAt(parts, i);
        SubIsThere(current, key, parts[..i]);
        if !(key in current.entries && current.entries[key].Sub?) {
          NothingToDrop(doc, parts, i);
          return;
        }
        current := current.entries[key].node;
      }
      var lastKey := parts[n];
      CutAt(parts, n);
      SubIsThere(current, lastKey, parts[..n]);
      if lastKey !in current.entries {
        NothingToDrop(doc, parts, n);
        return;
      }
      Change(current, lastKey, None, parts[..n], Drop, map[]);
    }

    /** An entry is a map exactly when the document has an object there. */
    lemma SubIsThere(current: Node, key: string, q: Path)
      requires Valid() && q in at && at[q] == current
      ensures IsObjAt(doc, q + [key]) <==> key in current.entries && current.entries[key].Sub?
      ensures IsObjAt(doc, q + [key]) ==> q + [key] in at && at[q + [key]] == current.entries[key].node
      ensures key in current.entries <==> key in Get(doc, q).value.fields
    {
      assert NodeTies(current, Get(doc, q).value.fields, at, q);
      GetSnoc(doc, q, key);
    }
  }

  lemma EmptyTies(n: Node, at: map<Path, Node>)
    requires n.entries == map[] && at == map[[] := n]
    ensures Ties(at, Obj(map[]))
  {
  }

  lemma GraftedValues(at: map<Path, Node>, w: Path, sub: map<Path, Node>)
    ensures Grafted(at, w, sub).Values <= at.Values + sub.Values
  {
    var g := Grafted(at, w, sub);
    forall n | n in g.Values
      ensures n in at.Values + sub.Values
    {
      var p :| p in g && g[p] == n;
      GraftedAt(at, w, sub, p);
    }
  }
}
