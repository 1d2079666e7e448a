/** Exactly when pushing a diff is correct, for all old and new configs: in the diff's own order, and through a batch,
    which moves the sets of a section before its unsets. */
module ConfigExact {
  import opened Common
  import opened JsonTree
  import opened DotPath
  import opened ConfigOps
  import opened ConfigDiff
  import ConfigBatch
  import ConfigPush

  // ---- Names that are not clean ----

  /** An operation that does not write the whole section `s` leaves its unclean keys alone. */
  lemma UncleanKeyUntouched(s: Section, t: Section, was: Object, wants: Object, op: ConfigOp, key: string)
    requires Keyed(s) && op in SectionOps(t, was, wants) && PathOf(op) != Keys(s) && !Clean(key)
    ensures Incomparable(PathOf(op), Keys(s) + [key])
  {
    OpInItsSection(t, was, wants, op);
    if t != s {
      PathsOfTwoSections(t, PathOf(op), s, Keys(s) + [key]);
    } else {
      var name := NameOf(s, was, wants, op);
      NamedPath(s, name);
      CutIsClean("", name);
      assert PathOf(op)[|Keys(s)|] in Segments(name);
      assert PathOf(op)[|Keys(s)|] != (Keys(s) + [key])[|Keys(s)|];
    }
  }

  lemma UncleanKeyKept(j: Json, ops: seq<ConfigOp>, was: Object, wants: Object, s: Section, key: string)
    requires forall op :: op in ops ==> op in DiffOps(was, wants)
    requires forall op :: op in ops ==> PathOf(op) != Keys(s)
    requires Keyed(s) && !Clean(key)
    ensures Get(AppliedAll(j, ops), Keys(s) + [key]) == Get(j, Keys(s) + [key])
  {
    forall op | op in ops
      ensures Incomparable(PathOf(op), Keys(s) + [key])
    {
      var t: Section :| op in SectionOps(t, was, wants);
      UncleanKeyUntouched(s, t, was, wants, op, key);
    }
    ReadElsewhere(j, ops, Keys(s) + [key]);
  }

  lemma {:induction false} LastWholeWrite(ops: seq<ConfigOp>, p: Path) returns (i: nat)
    requires exists op :: op in ops && PathOf(op) == p
    ensures i < |ops| && PathOf(ops[i]) == p
    ensures forall op :: op in ops[i + 1..] ==> PathOf(op) != p
  {
    if PathOf(ops[|ops| - 1]) == p {
      i := |ops| - 1;
    } else {
      var init := ops[..|ops| - 1];
      var op :| op in ops && PathOf(op) == p;
      assert op in init;
      i := LastWholeWrite(init, p);
      assert ops[i + 1..] == init[i + 1..] + [ops[|ops| - 1]];
    }
  }

  /** Some name made of dots only must be unset. */
  ghost predicate DotsOnlyRemoval(s: Section, was: Object, wants: Object) {
    exists name :: Removed(FieldsAt(Obj(was), Keys(s)), FieldsAt(Obj(wants), Keys(s)), name) && Segments(name) == []
  }

  /** An operation that writes a whole keyed section is about a name made of dots only. */
  lemma WholeWriteName(s: Section, was: Object, wants: Object, op: ConfigOp) returns (d: string)
    requires Keyed(s) && op in DiffOps(was, wants) && PathOf(op) == Keys(s)
    ensures op in SectionOps(s, was, wants) && Touched(s, was, wants, d) && Segments(d) == [] && !Clean(d)
    ensures var b := FieldsAt(Obj(wants), Keys(s));
            op == if d in b then SetNamed(Text(s), d, b[d]) else UnsetNamed(Text(s), d)
  {
    var t: Section :| op in SectionOps(t, was, wants);
    OpInItsSection(t, was, wants, op);
    if t != s {
      PathsOfTwoSections(t, PathOf(op), s, Keys(s));
    }
    d := NameOf(s, was, wants, op);
    NamedPath(s, d);
    assert Segments(d) == PathOf(op)[|Keys(s)|..] == [];
    DotsAreNotClean(d);
  }

  /** When the last write of a whole section sets a name made of dots only, the section ends up holding that name's
      value itself, and the name is wrong or missing in it. */
  lemma DotsOnlyNameDisagrees(was: Object, wants: Object, ops: seq<ConfigOp>, s: Section, i: nat)
    requires Enumerates(ops, DiffOps(was, wants)) && Keyed(s)
    requires i < |ops| && PathOf(ops[i]) == Keys(s) && ops[i].SetOp?
    requires forall op :: op in ops[i + 1..] ==> PathOf(op) != Keys(s)
    ensures !AgreesOn(s, AppliedAll(Obj(was), ops), wants)
  {
    var last, rest := ops[i], ops[i + 1..];
    assert last in ops;
    var d := WholeWriteName(s, was, wants, last);
    var v := FieldsAt(Obj(wants), Keys(s))[d];

    var before := AppliedAll(Obj(was), ops[..i]);
    var after := Applied(before, last);
    AppliedAround(Obj(was), ops, i);
    GetEdited(before, Keys(s), EditOf(last));
    UncleanKeyKept(after, rest, was, wants, s, d);
    HoldsItsOwnMember(after, AppliedAll(after, rest), Keys(s), d, v);
  }

  lemma HoldsItsOwnMember(after: Json, got: Json, keys: Path, d: string, v: Json)
    requires Get(after, keys) == Some(v) && Get(got, keys + [d]) == Get(after, keys + [d])
    ensures !(d in FieldsAt(got, keys) && FieldsAt(got, keys)[d] == v)
  {
    GetSnoc(after, keys, d);
    GetSnoc(got, keys, d);
    if d in FieldsOf(v) {
      NoSelfContainment(v, d);
    }
  }

  lemma NoSelfContainment(v: Json, key: string)
    requires key in FieldsOf(v)
    ensures FieldsOf(v)[key] != v
  {
    assert v.fields[key] < v;
  }

  lemma DotsAreNotClean(name: string)
    requires Segments(name) == []
    ensures !Clean(name)
  {
    if '.' !in name {
      CutWithoutDot("", name);
      assert "" + name == name;
    }
  }

  /** An unclean name that needs an operation is left as it was. */
  lemma UncleanNameDisagrees(was: Object, wants: Object, ops: seq<ConfigOp>, s: Section, name: string)
    requires Enumerates(ops, DiffOps(was, wants)) && Keyed(s) && Touched(s, was, wants, name) && !Clean(name)
    requires forall op :: op in ops ==> PathOf(op) != Keys(s)
    ensures !AgreesOn(s, AppliedAll(Obj(was), ops), wants)
  {
    UncleanKeyKept(Obj(was), ops, was, wants, s, name);
    GetSnoc(Obj(was), Keys(s), name);
    GetSnoc(AppliedAll(Obj(was), ops), Keys(s), name);
  }

  /** Without a removed name of dots only, a section comes out right, in any order of the operations, exactly when
      every name it sets or unsets is clean. */
  lemma SectionAgreesIffClean(was: Object, wants: Object, ops: seq<ConfigOp>, s: Section)
    requires Enumerates(ops, DiffOps(was, wants)) && Keyed(s) && !DotsOnlyRemoval(s, was, wants)
    ensures AgreesOn(s, AppliedAll(Obj(was), ops), wants) <==> CleanIn(s, was, wants)
  {
    if CleanIn(s, was, wants) {
      KeyedSectionAgrees(was, wants, ops, s);
    } else {
      var name :| Touched(s, was, wants, name) && !Clean(name);
      if exists op :: op in ops && PathOf(op) == Keys(s) {
        var i := LastWholeWrite(ops, Keys(s));
        assert ops[i] in ops;
        var d := WholeWriteName(s, was, wants, ops[i]);
        DotsOnlyNameDisagrees(was, wants, ops, s, i);
      } else {
        UncleanNameDisagrees(was, wants, ops, s, name);
      }
    }
  }

  // ---- A name of dots only is removed ----

  /** Its operation unsets the whole section. */
  lemma WholeDrop(was: Object, wants: Object, ops: seq<ConfigOp>, s: Section) returns (i: nat)
    requires Enumerates(ops, DiffOps(was, wants)) && Keyed(s) && DotsOnlyRemoval(s, was, wants)
    ensures i < |ops| && PathOf(ops[i]) == Keys(s) && ops[i].UnsetOp? && ops[i] in SectionOps(s, was, wants)
  {
    var a, b := FieldsAt(Obj(was), Keys(s)), FieldsAt(Obj(wants), Keys(s));
    var name :| Removed(a, b, name) && Segments(name) == [];
    var op := UnsetNamed(Text(s), name);
    NamedPath(s, name);
    assert Keys(s) + [] == Keys(s);
    assert op in SectionOps(s, was, wants) && op in DiffOps(was, wants);
    i :| 0 <= i < |ops| && ops[i] == op;
  }

  /** Once a whole section has been unset, it stays empty under further unsets. */
  lemma DotsOnlyRemovalEmptiesTheSection(j: Json, ops: seq<ConfigOp>, p: Path, i: nat)
    requires i < |ops| && PathOf(ops[i]) == p != [] && EditOf(ops[i]).Drop?
    requires forall op :: op in ops[i + 1..] ==> EditOf(op).Drop? || Incomparable(PathOf(op), p)
    ensures Get(AppliedAll(j, ops), p) == None
    ensures FieldsAt(AppliedAll(j, ops), p) == map[]
  {
    AppliedAround(j, ops, i);
    var before := AppliedAll(j, ops[..i]);
    GetEdited(before, p, Drop);
    AbsentStays(Applied(before, ops[i]), ops[i + 1..], p);
  }

  lemma OtherSectionsAreElsewhere(s: Section, was: Object, wants: Object, op: ConfigOp, q: Path)
    requires op in DiffOps(was, wants) && op !in SectionOps(s, was, wants) && Keys(s) <= q
    ensures Incomparable(PathOf(op), q)
  {
    var t: Section :| op in SectionOps(t, was, wants);
    OpInItsSection(t, was, wants, op);
    PathsOfTwoSections(t, PathOf(op), s, q);
  }

  /** No unset of the section comes before a set of it. */
  ghost predicate SetsFirst(ops: seq<ConfigOp>) {
    forall i, k :: 0 <= i < k < |ops| && ops[i].UnsetOp? ==> !ops[k].SetOp?
  }

  /** With the sets first, such a section ends up empty. */
  lemma EmptiedSection(was: Object, wants: Object, ops: seq<ConfigOp>, s: Section)
    requires Enumerates(ops, DiffOps(was, wants)) && SetsFirst(ops) && Keyed(s) && DotsOnlyRemoval(s, was, wants)
    ensures FieldsAt(AppliedAll(Obj(was), ops), Keys(s)) == map[]
  {
    var i := WholeDrop(was, wants, ops, s);
    forall op | op in ops[i + 1..]
      ensures EditOf(op).Drop? || Incomparable(PathOf(op), Keys(s))
    {
      var k :| 0 <= k < |ops[i + 1..]| && ops[i + 1..][k] == op;
      assert op == ops[i + 1 + k] && op in ops;
    }
    DotsOnlyRemovalEmptiesTheSection(Obj(was), ops, Keys(s), i);
  }

  // ---- With the unsets first: the diff's own order ----

  /** A keyed section can be told beforehand to come out right: when a name of dots only is unset, everything is
      dropped first, so every wanted name must be clean and must be set again. */
  ghost predicate RightInOrder(s: Section, was: Object, wants: Object) {
    if DotsOnlyRemoval(s, was, wants) then
      var a, b := FieldsAt(Obj(was), Keys(s)), FieldsAt(Obj(wants), Keys(s));
      forall name | name in b :: Clean(name) && Changed(a, b, name)
    else
      CleanIn(s, was, wants)
  }

  /** After the last drop of a whole section only sets of names can bring something back, each its own name. */
  lemma NotSetAgain(was: Object, wants: Object, ops: seq<ConfigOp>, s: Section, i: nat, name: string)
    requires Enumerates(ops, DiffOps(was, wants)) && Keyed(s)
    requires i < |ops| && PathOf(ops[i]) == Keys(s) && EditOf(ops[i]).Drop?
    requires var a, b := FieldsAt(Obj(was), Keys(s)), FieldsAt(Obj(wants), Keys(s));
             !Changed(a, b, name) && forall n | n in b :: Clean(n)
    ensures Get(AppliedAll(Obj(was), ops), Keys(s) + [name]) == None
  {
    var q := Keys(s) + [name];
    var before := AppliedAll(Obj(was), ops[..i]);
    var after := Applied(before, ops[i]);
    AppliedAround(Obj(was), ops, i);
    GetEdited(before, Keys(s), Drop);
    GetSnoc(after, Keys(s), name);
    forall op | op in ops[i + 1..]
      ensures EditOf(op).Drop? || Incomparable(PathOf(op), q)
    {
      assert op in ops;
      SetsTheirOwnName(s, was, wants, op, name);
    }
    AbsentStays(after, ops[i + 1..], q);
  }

  lemma SiblingsApart(keys: Path, a: string, b: string)
    requires a != b
    ensures Incomparable(keys + [a], keys + [b])
  {
    assert (keys + [a])[|keys|] != (keys + [b])[|keys|];
  }

  lemma SetsTheirOwnName(s: Section, was: Object, wants: Object, op: ConfigOp, name: string)
    requires Keyed(s) && op in DiffOps(was, wants)
    requires var a, b := FieldsAt(Obj(was), Keys(s)), FieldsAt(Obj(wants), Keys(s));
             && (forall n | n in b :: Clean(n))
             && (name in b && Changed(a, b, name) ==> op != SetNamed(Text(s), name, b[name]))
    ensures EditOf(op).Drop? || Incomparable(PathOf(op), Keys(s) + [name])
  {
    if op in SectionOps(s, was, wants) {
      var other := NameOf(s, was, wants, op);
      if other in FieldsAt(Obj(wants), Keys(s)) {
        SectionSegments(s);
        SegmentsOfMember(Text(s), other);
        SiblingsApart(Keys(s), other, name);
      }
    } else {
      OtherSectionsAreElsewhere(s, was, wants, op, Keys(s) + [name]);
    }
  }

  /** A clean name that is set reads as wanted when the unsets came first. */
  lemma SetAgain(was: Object, wants: Object, ops: seq<ConfigOp>, s: Section, name: string)
    requires Enumerates(ops, DiffOps(was, wants)) && UnsetsFirst(ops, was, wants) && Keyed(s)
    requires var a, b := FieldsAt(Obj(was), Keys(s)), FieldsAt(Obj(wants), Keys(s));
             Changed(a, b, name) && forall n | n in b :: Clean(n)
    ensures Get(AppliedAll(Obj(was), ops), Keys(s) + [name]) == Get(Obj(wants), Keys(s) + [name])
  {
    var b := FieldsAt(Obj(wants), Keys(s));
    var op := SetNamed(Text(s), name, b[name]);
    GetSnoc(Obj(wants), Keys(s), name);
    SectionSegments(s);
    SegmentsOfMember(Text(s), name);
    assert op in SectionOps(s, was, wants) && op in DiffOps(was, wants);
    var i :| 0 <= i < |ops| && ops[i] == op;
    forall k | i < k < |ops|
      ensures Incomparable(PathOf(ops[k]), PathOf(op))
    {
      assert ops[k] in ops && ops[k] != op;
      SetsTheirOwnName(s, was, wants, ops[k], name);
      if ops[k] !in SectionOps(s, was, wants) {
        OtherSectionsAreElsewhere(s, was, wants, ops[k], Keys(s) + [name]);
      } else {
        var other := NameOf(s, was, wants, ops[k]);
      }
    }
    ReadWritten(Obj(was), ops, i);
  }

  lemma RebuiltSection(was: Object, wants: Object, ops: seq<ConfigOp>, s: Section, i: nat)
    requires Enumerates(ops, DiffOps(was, wants)) && UnsetsFirst(ops, was, wants) && Keyed(s)
    requires i < |ops| && PathOf(ops[i]) == Keys(s) && EditOf(ops[i]).Drop?
    requires var a, b := FieldsAt(Obj(was), Keys(s)), FieldsAt(Obj(wants), Keys(s));
             forall n | n in b :: Clean(n) && Changed(a, b, n)
    ensures AgreesOn(s, AppliedAll(Obj(was), ops), wants)
  {
    forall name
      ensures Get(AppliedAll(Obj(was), ops), Keys(s) + [name]) == Get(Obj(wants), Keys(s) + [name])
    {
      if name in FieldsAt(Obj(wants), Keys(s)) {
        SetAgain(was, wants, ops, s, name);
      } else {
        NotSetAgain(was, wants, ops, s, i, name);
        GetSnoc(Obj(wants), Keys(s), name);
      }
    }
    SectionFromNames(s, AppliedAll(Obj(was), ops), wants);
  }

  /** A wanted name that is absent at the end is a disagreement. */
  lemma AbsentDisagrees(s: Section, got: Json, wants: Object, name: string)
    requires Keyed(s) && Get(got, Keys(s) + [name]) == None && name in FieldsAt(Obj(wants), Keys(s))
    ensures !AgreesOn(s, got, wants)
  {
    GetSnoc(got, Keys(s), name);
  }

  /** An unclean name does not survive the last drop of the whole section. */
  lemma LostUnclean(was: Object, wants: Object, ops: seq<ConfigOp>, s: Section, i: nat, name: string)
    requires Enumerates(ops, DiffOps(was, wants)) && Keyed(s) && !Clean(name)
    requires i < |ops| && PathOf(ops[i]) == Keys(s) && EditOf(ops[i]).Drop?
    requires forall op :: op in ops[i + 1..] ==> PathOf(op) != Keys(s)
    ensures Get(AppliedAll(Obj(was), ops), Keys(s) + [name]) == None
  {
    var before := AppliedAll(Obj(was), ops[..i]);
    var after := Applied(before, ops[i]);
    AppliedAround(Obj(was), ops, i);
    GetEdited(before, Keys(s), Drop);
    UncleanKeyKept(after, ops[i + 1..], was, wants, s, name);
    GetSnoc(after, Keys(s), name);
  }

  /** A wanted name that is not set again after a drop of the whole section, or cannot be, is missing. */
  lemma LostName(was: Object, wants: Object, ops: seq<ConfigOp>, s: Section, name: string)
    requires Enumerates(ops, DiffOps(was, wants)) && Keyed(s) && DotsOnlyRemoval(s, was, wants)
    requires var a, b := FieldsAt(Obj(was), Keys(s)), FieldsAt(Obj(wants), Keys(s));
             name in b && !(Clean(name) && Changed(a, b, name))
    ensures !AgreesOn(s, AppliedAll(Obj(was), ops), wants)
  {
    var i := LastWrite(was, wants, ops, s);
    if ops[i].SetOp? {
      DotsOnlyNameDisagrees(was, wants, ops, s, i);
    } else if unclean :| unclean in FieldsAt(Obj(wants), Keys(s)) && !Clean(unclean) {
      LostUnclean(was, wants, ops, s, i, unclean);
      AbsentDisagrees(s, AppliedAll(Obj(was), ops), wants, unclean);
    } else {
      NotSetAgain(was, wants, ops, s, i, name);
      AbsentDisagrees(s, AppliedAll(Obj(was), ops), wants, name);
    }
  }

  lemma LastWrite(was: Object, wants: Object, ops: seq<ConfigOp>, s: Section) returns (i: nat)
    requires Enumerates(ops, DiffOps(was, wants)) && Keyed(s) && DotsOnlyRemoval(s, was, wants)
    ensures i < |ops| && PathOf(ops[i]) == Keys(s) && (ops[i].SetOp? || EditOf(ops[i]).Drop?)
    ensures forall op :: op in ops[i + 1..] ==> PathOf(op) != Keys(s)
  {
    var w := WholeDrop(was, wants, ops, s);
    assert ops[w] in ops;
    i := LastWholeWrite(ops, Keys(s));
  }

  lemma SectionInOrderIff(was: Object, wants: Object, ops: seq<ConfigOp>, s: Section)
    requires Enumerates(ops, DiffOps(was, wants)) && UnsetsFirst(ops, was, wants) && Keyed(s)
    ensures AgreesOn(s, AppliedAll(Obj(was), ops), wants) <==> RightInOrder(s, was, wants)
  {
    if !DotsOnlyRemoval(s, was, wants) {
      SectionAgreesIffClean(was, wants, ops, s);
    } else if RightInOrder(s, was, wants) {
      var i := WholeDrop(was, wants, ops, s);
      RebuiltSection(was, wants, ops, s, i);
    } else {
      var a, b := FieldsAt(Obj(was), Keys(s)), FieldsAt(Obj(wants), Keys(s));
      var name :| name in b && !(Clean(name) && Changed(a, b, name));
      LostName(was, wants, ops, s, name);
    }
  }

  /** For all old and new configs: the operations of a diff, applied in the order `BuildConfigOps` lists them, make the
      document agree with the new config on all managed sections exactly when both keyed sections are right. */
  lemma PushInOrderAgreesIff(was: Object, wants: Object, ops: seq<ConfigOp>)
    requires Enumerates(ops, DiffOps(was, wants)) && UnsetsFirst(ops, was, wants)
    ensures Agrees(AppliedAll(Obj(was), ops), wants) <==>
            forall s: Section | Keyed(s) :: RightInOrder(s, was, wants)
  {
    forall s: Section
      ensures Keyed(s) ==> (AgreesOn(s, AppliedAll(Obj(was), ops), wants) <==> RightInOrder(s, was, wants))
      ensures !Keyed(s) ==> AgreesOn(s, AppliedAll(Obj(was), ops), wants)
    {
      if Keyed(s) {
        SectionInOrderIff(was, wants, ops, s);
      } else {
        WholeSectionAgrees(was, wants, ops, s);
      }
    }
  }

  // ---- With the sets first: through a batch ----

  /** Through a batch, a section from which a name of dots only is unset is emptied at the end. */
  ghost predicate RightThroughBatch(s: Section, was: Object, wants: Object) {
    if DotsOnlyRemoval(s, was, wants) then FieldsAt(Obj(wants), Keys(s)) == map[]
    else CleanIn(s, was, wants)
  }

  lemma PushSetsFirstAgreesIff(was: Object, wants: Object, ops: seq<ConfigOp>)
    requires Enumerates(ops, DiffOps(was, wants)) && SetsFirst(ops)
    ensures Agrees(AppliedAll(Obj(was), ops), wants) <==>
            forall s: Section | Keyed(s) :: RightThroughBatch(s, was, wants)
  {
    forall s: Section
      ensures Keyed(s) ==> (AgreesOn(s, AppliedAll(Obj(was), ops), wants) <==> RightThroughBatch(s, was, wants))
      ensures !Keyed(s) ==> AgreesOn(s, AppliedAll(Obj(was), ops), wants)
    {
      if !Keyed(s) {
        WholeSectionAgrees(was, wants, ops, s);
      } else if DotsOnlyRemoval(s, was, wants) {
        EmptiedSection(was, wants, ops, s);
      } else {
        SectionAgreesIffClean(was, wants, ops, s);
      }
    }
  }

  lemma RegroupedSetsFirst(ops: seq<ConfigOp>)
    ensures SetsFirst(ConfigBatch.Regrouped(ops))
  {
    ConfigBatch.GroupsAreOfTheirKind(ops);
    SetsThenUnsets(ConfigBatch.Replaces(ops) + ConfigBatch.Sets(ops), ConfigBatch.Unsets(ops));
  }

  lemma SetsThenUnsets(sets: seq<ConfigOp>, unsets: seq<ConfigOp>)
    requires forall op :: op in sets ==> op.SetOp?
    requires forall op :: op in unsets ==> op.UnsetOp?
    ensures SetsFirst(sets + unsets)
  {
    forall i | 0 <= i < |sets + unsets|
      ensures (sets + unsets)[i].SetOp? <==> i < |sets|
    {
      if i < |sets| {
        assert sets[i] in sets;
      } else {
        assert unsets[i - |sets|] in unsets;
      }
    }
  }

  lemma PermutationEnumerates(a: seq<ConfigOp>, b: seq<ConfigOp>, wanted: set<ConfigOp>)
    requires Enumerates(a, wanted) && multiset(a) == multiset(b)
    ensures Enumerates(b, wanted)
  {
    forall i, k | 0 <= i < k < |b|
      ensures b[i] != b[k]
    {
      if b[i] == b[k] {
        TwiceInMultiset(b, i, k);
        OnceInMultiset(a, b[i]);
      }
    }
    forall op
      ensures op in b <==> op in wanted
    {
      assert op in b <==> op in multiset(b);
      assert op in a <==> op in multiset(a);
    }
  }

  lemma TwiceInMultiset(b: seq<ConfigOp>, i: nat, k: nat)
    requires i < k < |b| && b[i] == b[k]
    ensures multiset(b)[b[i]] >= 2
  {
    assert b == b[..i] + [b[i]] + b[i + 1..k] + [b[k]] + b[k + 1..];
  }

  lemma {:induction false} OnceInMultiset(a: seq<ConfigOp>, x: ConfigOp)
    requires NoDuplicates(a)
    ensures multiset(a)[x] <= 1
  {
    if a != [] {
      OnceInMultiset(a[1..], x);
      assert a == [a[0]] + a[1..];
      if a[0] == x {
        assert x !in a[1..];
        assert multiset(a[1..])[x] == 0;
      }
    }
  }

  /** For all old and new configs: a diff pushed through a batch without errors makes the machine's document agree
      with the new config on all managed sections exactly when both keyed sections are right for a batch. */
  lemma SuccessfulPushAgreesIff(was: Object, wants: Object, ops: seq<ConfigOp>, log: seq<ConfigBatch.Sent>)
    requires Enumerates(ops, DiffOps(was, wants))
    requires ConfigBatch.AllOk(log) && ConfigPush.SentFor(ops, log)
    ensures Agrees(ConfigBatch.Replay(Obj(was), log), wants) <==>
            forall s: Section | Keyed(s) :: RightThroughBatch(s, was, wants)
  {
    ConfigPush.DiffIsRunnable(was, wants, ops);
    ConfigBatch.SuccessfulBatchIsRegrouped(Obj(was), ops, log);
    ConfigBatch.RegroupedIsPermutation(ops);
    PermutationEnumerates(ops, ConfigBatch.Regrouped(ops), DiffOps(was, wants));
    RegroupedSetsFirst(ops);
    PushSetsFirstAgreesIff(was, wants, ConfigBatch.Regrouped(ops));
  }

  // ---- In any order ----

  /** Unless a name made of dots only is removed, the push is correct, in whatever order, exactly when every provider
      and plugin name it sets or unsets is non-empty and free of dots. */
  lemma PushAgreesIffNamesAreClean(was: Object, wants: Object, ops: seq<ConfigOp>)
    requires Enumerates(ops, DiffOps(was, wants))
    requires forall s: Section | Keyed(s) :: !DotsOnlyRemoval(s, was, wants)
    ensures Agrees(AppliedAll(Obj(was), ops), wants) <==> CleanNames(was, wants)
  {
    if CleanNames(was, wants) {
      PushAgrees(was, wants, ops);
    } else {
      var s :| !CleanIn(s, was, wants);
      SectionAgreesIffClean(was, wants, ops, s);
    }
  }
}
