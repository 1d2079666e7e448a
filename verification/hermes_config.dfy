/** `mergeHermesConfig`: the owned sections are taken from the desired config, the user's platforms stay. */
module HermesConfig {
  import opened Common
  import opened JsonTree

  const OwnedKeys: seq<string> := ["model", "terminal", "dashboard", "browser"]

  const ManagedPlatforms: set<string> := {"api_server", "telegram", "discord", "slack"}

  const Platforms := "platforms"

  /** The platforms of a config; anything that is not a map counts as none. */
  function PlatformsOf(m: Object): Object {
    FieldsOf(Child(Obj(m), Platforms))
  }

  predicate Owned(key: string) {
    key in OwnedKeys
  }

  /** The platforms after a merge: managed ones come from the desired config only. */
  function MergedPlatforms(existing: Object, desired: Object): Object {
    (PlatformsOf(existing) - ManagedPlatforms) + PlatformsOf(desired)
  }

  function Picked(m: Object, keys: seq<string>): Object {
    map k | k in m && k in keys :: m[k]
  }

  function WithOwned(existing: Object, desired: Object): Object {
    existing + Picked(desired, OwnedKeys)
  }

  function Merged(existing: Object, desired: Object): Object {
    var m := WithOwned(existing, desired);
    WithPlatforms(m, MergedPlatforms(m, desired))
  }

  function WithPlatforms(m: Object, platforms: Object): Object {
    if platforms != map[] then m[Platforms := Obj(platforms)] else m - {Platforms}
  }

  lemma PlatformsAreNotOwned()
    ensures !Owned(Platforms)
  {
    assert |Platforms| == 9 && Platforms[0] == 'p';
  }

  lemma PickedSnoc(existing: Object, desired: Object, keys: seq<string>, i: nat)
    requires i < |keys|
    ensures var before, after := existing + Picked(desired, keys[..i]), existing + Picked(desired, keys[..i + 1]);
            after == if keys[i] in desired then before[keys[i] := desired[keys[i]]] else before
  {
    assert keys[..i + 1] == keys[..i] + [keys[i]];
    var picked, next := Picked(desired, keys[..i]), Picked(desired, keys[..i + 1]);
    assert next == if keys[i] in desired then picked[keys[i] := desired[keys[i]]] else picked;
  }

  method TakeKeys(existing: Object, desired: Object, keys: seq<string>) returns (merged: Object)
    ensures merged == existing + Picked(desired, keys)
  {
    merged := existing;
    for i := 0 to |keys|
      invariant merged == existing + Picked(desired, keys[..i])
    {
      var key := keys[i];
      PickedSnoc(existing, desired, keys, i);
      if key in desired {
        merged := merged[key := desired[key]];
      }
    }
    assert keys[..|keys|] == keys;
  }

  method DropKeys(m: Object, keys: set<string>) returns (r: Object)
    ensures r == m - keys
  {
    r := m;
    var todo := keys;
    while todo != {}
      invariant todo <= keys && r == m - (keys - todo)
    {
      var key :| key in todo;
      r := r - {key};
      todo := todo - {key};
    }
  }

  method PutPlatforms(m: Object, platforms: Object) returns (r: Object)
    ensures r == WithPlatforms(m, platforms)
  {
    if |platforms| > 0 {
      r := m[Platforms := Obj(platforms)];
    } else {
      r := m - {Platforms};
    }
  }

  method MergeHermesConfig(existing: Object, desired: Object) returns (merged: Object)
    ensures merged == Merged(existing, desired)
  {
    merged := TakeKeys(existing, desired, OwnedKeys);
    var existingPlatforms := DropKeys(PlatformsOf(merged), ManagedPlatforms);
    existingPlatforms := existingPlatforms + PlatformsOf(desired);
    merged := PutPlatforms(merged, existingPlatforms);
  }

  lemma PlatformsOfMerged(existing: Object, desired: Object)
    ensures PlatformsOf(Merged(existing, desired)) == MergedPlatforms(existing, desired)
  {
    PlatformsAreNotOwned();
    var m := WithOwned(existing, desired);
    assert PlatformsOf(m) == PlatformsOf(existing);
  }

  /** Away from the platforms, a merge takes the owned sections the desired config has and leaves the rest. */
  lemma SectionOfMerged(existing: Object, desired: Object, key: string)
    requires key != Platforms
    ensures var m := Merged(existing, desired);
            if Owned(key) && key in desired then key in m && m[key] == desired[key]
            else (key in m <==> key in existing) && (key in m ==> m[key] == existing[key])
  {
  }

  /** The four owned sections come from the desired config when it has them; every other section but the platforms is the
      user's. */
  lemma SectionsByName(existing: Object, desired: Object, key: string)
    requires key != "platforms"
    ensures Get(Obj(Merged(existing, desired)), [key])
            == if key in {"model", "terminal", "dashboard", "browser"} && key in desired then Get(Obj(desired), [key])
               else Get(Obj(existing), [key])
  {
    SectionOfMerged(existing, desired, key);
    assert Owned(key) <==> key in {"model", "terminal", "dashboard", "browser"};
    SectionIn(Merged(existing, desired), key);
    SectionIn(existing, key);
    SectionIn(desired, key);
  }

  lemma SectionIn(m: Object, key: string)
    ensures Get(Obj(m), [key]) == if key in m then Some(m[key]) else None
  {
    var path := [key];
    assert path[0] == key && path[1..] == [];
    assert Get(Obj(m), path) == if path[0] in m then Get(m[path[0]], path[1..]) else None;
  }

  /** The four managed platforms are there exactly as the desired config has them; of the others the user's stay, unless
      the desired config has them too. */
  lemma PlatformsByName(existing: Object, desired: Object, name: string)
    ensures Get(Obj(Merged(existing, desired)), ["platforms", name])
            == if name in {"api_server", "telegram", "discord", "slack"} || Get(Obj(desired), ["platforms", name]).Some?
               then Get(Obj(desired), ["platforms", name]) else Get(Obj(existing), ["platforms", name])
  {
    PlatformsOfMerged(existing, desired);
    PlatformIn(Merged(existing, desired), name);
    PlatformIn(existing, name);
    PlatformIn(desired, name);
  }

  lemma PlatformIn(m: Object, name: string)
    ensures Get(Obj(m), ["platforms", name]) == if name in PlatformsOf(m) then Some(PlatformsOf(m)[name]) else None
  {
    var path := ["platforms", name];
    assert path[0] == Platforms && path[1..] == [name];
    SectionIn(PlatformsOf(m), name);
    if Platforms in m {
      assert Get(Obj(m), path) == Get(m[Platforms], [name]) == Get(Obj(FieldsOf(m[Platforms])), [name]);
    }
  }

  /** Nothing the first desired config brings in survives the second one, unless it was there before. */
  predicate Settled(existing: Object, first: Object, second: Object) {
    && (forall k :: k in first && Owned(k) && k !in second ==> k in existing && existing[k] == first[k])
    && (forall k :: k in PlatformsOf(first) && k !in ManagedPlatforms && k !in PlatformsOf(second) ==>
          k in PlatformsOf(existing) && PlatformsOf(existing)[k] == PlatformsOf(first)[k])
  }

  predicate SameAt(a: Object, b: Object, k: string) {
    (k in a <==> k in b) && (k in a ==> a[k] == b[k])
  }

  ghost predicate SameSections(a: Object, b: Object) {
    forall k :: k != Platforms ==> SameAt(a, b, k)
  }

  lemma SectionsOfMerged(a: Object, b: Object, d: Object)
    ensures SameSections(Merged(a, d), Merged(b, d)) <==>
            forall k :: k != Platforms && !(Owned(k) && k in d) ==> SameAt(a, b, k)
  {
    forall k | k != Platforms
      ensures SameAt(Merged(a, d), Merged(b, d), k) <==> (Owned(k) && k in d) || SameAt(a, b, k)
    {
      SectionOfMerged(a, d, k);
      SectionOfMerged(b, d, k);
    }
  }

  lemma SameByParts(a: Object, b: Object, d: Object)
    ensures Merged(a, d) == Merged(b, d) <==>
            MergedPlatforms(a, d) == MergedPlatforms(b, d) && SameSections(Merged(a, d), Merged(b, d))
  {
    PlatformsOfMerged(a, d);
    PlatformsOfMerged(b, d);
    if MergedPlatforms(a, d) == MergedPlatforms(b, d) && SameSections(Merged(a, d), Merged(b, d)) {
      PlatformsEntry(a, d);
      PlatformsEntry(b, d);
      SameEverywhere(Merged(a, d), Merged(b, d));
    }
  }

  lemma SameEverywhere(a: Object, b: Object)
    requires SameSections(a, b) && SameAt(a, b, Platforms)
    ensures a == b
  {
    forall k
      ensures (k in a <==> k in b) && (k in a ==> a[k] == b[k])
    {
      assert SameAt(a, b, k);
    }
  }

  lemma PlatformsEntry(a: Object, d: Object)
    ensures var p := MergedPlatforms(a, d);
            if p == map[] then Platforms !in Merged(a, d)
            else Platforms in Merged(a, d) && Merged(a, d)[Platforms] == Obj(p)
  {
    PlatformsAreNotOwned();
    assert PlatformsOf(WithOwned(a, d)) == PlatformsOf(a);
  }

  lemma PlatformsAbsorbIff(existing: Object, first: Object, second: Object)
    ensures MergedPlatforms(Merged(existing, first), second) == MergedPlatforms(existing, second) <==>
            forall k :: k in PlatformsOf(first) && k !in ManagedPlatforms && k !in PlatformsOf(second) ==>
              k in PlatformsOf(existing) && PlatformsOf(existing)[k] == PlatformsOf(first)[k]
  {
    PlatformsOfMerged(existing, first);
    PlatformsAbsorb(PlatformsOf(existing), PlatformsOf(first), PlatformsOf(second), ManagedPlatforms);
  }

  lemma PlatformsAbsorb(e: Object, a: Object, b: Object, managed: set<string>)
    ensures ((e - managed) + a - managed) + b == (e - managed) + b <==>
            forall k :: k in a && k !in managed && k !in b ==> k in e && e[k] == a[k]
  {
    var twice, once := ((e - managed) + a - managed) + b, (e - managed) + b;
    if k :| k in a && k !in managed && k !in b && !(k in e && e[k] == a[k]) {
      assert k in twice && twice[k] == a[k];
      assert !(k in once && once[k] == a[k]);
    } else {
      assert forall k :: k in twice <==> k in once;
      assert twice == once;
    }
  }

  /** A second merge makes up for the first if and only if the first brought in nothing new that the second
      neither replaces nor manages. */
  lemma MergeAbsorbsIff(existing: Object, first: Object, second: Object)
    ensures Merged(Merged(existing, first), second) == Merged(existing, second) <==> Settled(existing, first, second)
  {
    var once := Merged(existing, first);
    SameByParts(once, existing, second);
    SectionsOfMerged(once, existing, second);
    PlatformsAbsorbIff(existing, first, second);
    SectionsSettle(existing, first, second);
  }

  lemma SectionsSettle(existing: Object, first: Object, second: Object)
    ensures (forall k :: k != Platforms && !(Owned(k) && k in second) ==> SameAt(Merged(existing, first), existing, k)) <==>
            forall k :: k in first && Owned(k) && k !in second ==> k in existing && existing[k] == first[k]
  {
    forall k | k != Platforms
      ensures SameAt(Merged(existing, first), existing, k) <==>
              !(Owned(k) && k in first) || (k in existing && existing[k] == first[k])
    {
      SectionOfMerged(existing, first, k);
    }
    PlatformsAreNotOwned();
  }

  /** Merging the same config again changes nothing. */
  lemma MergeIsIdempotent(existing: Object, desired: Object)
    ensures Merged(Merged(existing, desired), desired) == Merged(existing, desired)
  {
    MergeAbsorbsIff(existing, desired, desired);
  }
}
