/** `buildConfigOps`: the whole diff, and what pushing it achieves. */
module ConfigDiff {
  import opened Common
  import opened JsonTree
  import opened DotPath
  import opened ConfigOps

  /** The managed sections of a machine's config. */
  datatype Section =
    | Providers | Entries | Allow | ModelCatalog | ModelDefaults | Assistant
    | AllowBundled | Browser | Search | AuthProfiles | AgentsList

  predicate Keyed(s: Section) {
    s.Providers? || s.Entries?
  }

  predicate Replaced(s: Section) {
    s.ModelCatalog? || s.ModelDefaults?
  }

  function Keys(s: Section): Path {
    match s
    case Providers => ["models", "providers"]
    case Entries => ["plugins", "entries"]
    case Allow => ["plugins", "allow"]
    case ModelCatalog => ["agents", "defaults", "models"]
    case ModelDefaults => ["agents", "defaults", "model"]
    case Assistant => ["ui", "assistant"]
    case AllowBundled => ["skills", "allowBundled"]
    case Browser => ["browser"]
    case Search => ["tools", "web", "search"]
    case AuthProfiles => ["auth", "profiles"]
    case AgentsList => ["agents", "list"]
  }

  lemma KeysAreClean(s: Section)
    ensures forall key :: key in Keys(s) ==> Clean(key)
  {
  }

  /** The dotted path of a section. */
  function Text(s: Section): string {
    Join(Keys(s))
  }

  /** The dotted paths, as the machine's command line takes them. */
  function DottedPath(s: Section): string {
    match s
    case Providers => "models.providers"
    case Entries => "plugins.entries"
    case Allow => "plugins.allow"
    case ModelCatalog => "agents.defaults.models"
    case ModelDefaults => "agents.defaults.model"
    case Assistant => "ui.assistant"
    case AllowBundled => "skills.allowBundled"
    case Browser => "browser"
    case Search => "tools.web.search"
    case AuthProfiles => "auth.profiles"
    case AgentsList => "agents.list"
  }

  lemma JoinTwo(a: string, b: string)
    ensures Join([a, b]) == a + "." + b
  {
    assert [a, b][1..] == [b];
  }

  lemma JoinThree(a: string, b: string, c: string)
    ensures Join([a, b, c]) == a + "." + (b + "." + c)
  {
    assert [a, b, c][1..] == [b, c];
    JoinTwo(b, c);
  }

  lemma Pairs()
    ensures "models" + "." + "providers" == "models.providers"
    ensures "plugins" + "." + "entries" == "plugins.entries"
    ensures "plugins" + "." + "allow" == "plugins.allow"
    ensures "ui" + "." + "assistant" == "ui.assistant"
    ensures "skills" + "." + "allowBundled" == "skills.allowBundled"
    ensures "auth" + "." + "profiles" == "auth.profiles"
    ensures "agents" + "." + "list" == "agents.list"
  {
  }

  lemma Triples()
    ensures "agents" + "." + ("defaults" + "." + "models") == "agents.defaults.models"
    ensures "agents" + "." + ("defaults" + "." + "model") == "agents.defaults.model"
    ensures "tools" + "." + ("web" + "." + "search") == "tools.web.search"
  {
  }

  lemma SectionPath(s: Section)
    ensures Text(s) == DottedPath(s)
  {
    Pairs();
    Triples();
    var keys := Keys(s);
    if |keys| == 2 {
      JoinTwo(keys[0], keys[1]);
      assert keys == [keys[0], keys[1]];
    } else if |keys| == 3 {
      JoinThree(keys[0], keys[1], keys[2]);
      assert keys == [keys[0], keys[1], keys[2]];
    }
  }

  lemma SectionSegments(s: Section)
    ensures Segments(Text(s)) == Keys(s)
  {
    KeysAreClean(s);
    SplitJoin(Keys(s));
  }

  lemma SectionsIncomparable(s: Section, t: Section)
    requires s != t
    ensures Incomparable(Keys(s), Keys(t))
  {
    var p, q := Keys(s), Keys(t);
    if p[0][0] != q[0][0] || |p[0]| != |q[0]| {
      assert p[0] != q[0];
    } else {
      assert |p| > 1 && |q| > 1;
      if p[1][0] != q[1][0] {
        assert p[1] != q[1];
      } else {
        assert |p[2]| != |q[2]|;
      }
    }
  }

  function WholeSectionOps(s: Section, was: Object, wants: Object): seq<ConfigOp> {
    if Replaced(s) then ReplaceOps(NestedMap(Obj(wants), Keys(s)), Text(s))
    else ObjectOps(NestedValue(Obj(was), Keys(s)), NestedValue(Obj(wants), Keys(s)), Text(s))
  }

  /** The operations one section needs. */
  function SectionOps(s: Section, was: Object, wants: Object): set<ConfigOp> {
    if Keyed(s) then
      KeyedOps(FieldsAt(Obj(was), Keys(s)), FieldsAt(Obj(wants), Keys(s)), Text(s))
    else
      set op | op in WholeSectionOps(s, was, wants)
  }

  /** The operations of the first `n` sections, in the order the diff visits them. */
  ghost function OpsUpTo(n: nat, was: Object, wants: Object): set<ConfigOp> {
    set s: Section, op | op in SectionOps(s, was, wants) && Rank(s) < n :: op
  }

  function Rank(s: Section): (r: nat)
    ensures r < 11
  {
    match s
    case Providers => 0
    case Entries => 1
    case Allow => 2
    case ModelCatalog => 3
    case ModelDefaults => 4
    case Assistant => 5
    case AllowBundled => 6
    case Browser => 7
    case Search => 8
    case AuthProfiles => 9
    case AgentsList => 10
  }

  /** The operations the whole diff needs. */
  ghost function DiffOps(was: Object, wants: Object): set<ConfigOp> {
    set s: Section, op | op in SectionOps(s, was, wants) :: op
  }

  lemma NamedPath(s: Section, name: string)
    ensures Segments(Text(s) + "." + name) == Keys(s) + Segments(name)
  {
    SectionSegments(s);
    CutAtDot("", Text(s), name);
  }

  /** The name behind an operation of a keyed section. */
  lemma NameOf(s: Section, was: Object, wants: Object, op: ConfigOp) returns (name: string)
    requires Keyed(s) && op in SectionOps(s, was, wants)
    ensures Touched(s, was, wants, name) && !op.OtherOp? && op.path == Text(s) + "." + name
    ensures var b := FieldsAt(Obj(wants), Keys(s));
            op == if name in b then SetNamed(Text(s), name, b[name]) else UnsetNamed(Text(s), name)
  {
    var a, b := FieldsAt(Obj(was), Keys(s)), FieldsAt(Obj(wants), Keys(s));
    if op in UnsetOps(a, b, Text(s), a.Keys) {
      name :| name in a && Removed(a, b, name) && op == UnsetNamed(Text(s), name);
    } else {
      name :| name in b && Changed(a, b, name) && op == SetNamed(Text(s), name, b[name]);
    }
  }

  /** Every operation of a section lies in that section, whatever the names are. */
  lemma OpInItsSection(s: Section, was: Object, wants: Object, op: ConfigOp)
    requires op in SectionOps(s, was, wants)
    ensures Keys(s) <= PathOf(op) && PathOf(op) != []
  {
    if Keyed(s) {
      var name := NameOf(s, was, wants, op);
      NamedPath(s, name);
    } else {
      SectionSegments(s);
    }
  }

  lemma PathsOfTwoSections(s: Section, p: Path, t: Section, q: Path)
    requires s != t && Keys(s) <= p && Keys(t) <= q
    ensures Incomparable(p, q)
  {
    SectionsIncomparable(s, t);
    IncomparableExtend(Keys(s), Keys(t), p[|Keys(s)|..], q[|Keys(t)|..]);
    assert p == Keys(s) + p[|Keys(s)|..] && q == Keys(t) + q[|Keys(t)|..];
  }

  lemma SectionsShareNoOps(s: Section, t: Section, was: Object, wants: Object)
    requires s != t
    ensures SectionOps(s, was, wants) !! SectionOps(t, was, wants)
  {
    forall op, other | op in SectionOps(s, was, wants) && other in SectionOps(t, was, wants)
      ensures op != other
    {
      OpInItsSection(s, was, wants, op);
      OpInItsSection(t, was, wants, other);
      PathsOfTwoSections(s, PathOf(op), t, PathOf(other));
    }
  }

  /** Within every section, unsets come before sets. */
  ghost predicate UnsetsFirst(ops: seq<ConfigOp>, was: Object, wants: Object) {
    forall s: Section, i, k |
      0 <= i < k < |ops| && ops[i] in SectionOps(s, was, wants) && ops[k] in SectionOps(s, was, wants) && ops[i].SetOp? ::
      !ops[k].UnsetOp?
  }

  lemma OneMoreSection(s: Section, was: Object, wants: Object)
    ensures OpsUpTo(Rank(s) + 1, was, wants) == OpsUpTo(Rank(s), was, wants) + SectionOps(s, was, wants)
  {
    forall op
      ensures op in OpsUpTo(Rank(s) + 1, was, wants) <==> op in OpsUpTo(Rank(s), was, wants) || op in SectionOps(s, was, wants)
    {
      if op in OpsUpTo(Rank(s) + 1, was, wants) {
        var t: Section :| op in SectionOps(t, was, wants) && Rank(t) < Rank(s) + 1;
        RankTellsSections(s, t);
      }
    }
  }

  lemma RankTellsSections(s: Section, t: Section)
    ensures Rank(s) == Rank(t) ==> s == t
  {
  }

  lemma DoneElsewhere(s: Section, was: Object, wants: Object, op: ConfigOp)
    requires op in OpsUpTo(Rank(s), was, wants)
    ensures op !in SectionOps(s, was, wants)
  {
    var t: Section :| op in SectionOps(t, was, wants) && Rank(t) < Rank(s);
    SectionsShareNoOps(s, t, was, wants);
  }

  lemma AddSection(ops: seq<ConfigOp>, more: seq<ConfigOp>, s: Section, was: Object, wants: Object)
    requires Lists(ops, Rank(s), was, wants)
    requires Enumerates(more, SectionOps(s, was, wants)) && UnsetsBeforeSets(more)
    ensures Lists(ops + more, Rank(s) + 1, was, wants)
  {
    var done := OpsUpTo(Rank(s), was, wants);
    forall op | op in done
      ensures op !in SectionOps(s, was, wants)
    {
      DoneElsewhere(s, was, wants, op);
    }
    EnumeratesBoth(ops, done, more, SectionOps(s, was, wants));
    OneMoreSection(s, was, wants);
    StillUnsetsFirst(ops, more, s, was, wants);
  }

  lemma StillUnsetsFirst(ops: seq<ConfigOp>, more: seq<ConfigOp>, s: Section, was: Object, wants: Object)
    requires Lists(ops, Rank(s), was, wants)
    requires Enumerates(more, SectionOps(s, was, wants)) && UnsetsBeforeSets(more)
    ensures UnsetsFirst(ops + more, was, wants)
  {
    var all := ops + more;
    forall t: Section, i, k |
      0 <= i < k < |all| && all[i] in SectionOps(t, was, wants) && all[k] in SectionOps(t, was, wants) && all[i].SetOp?
      ensures !all[k].UnsetOp?
    {
      if k >= |ops| {
        assert more[k - |ops|] in more;
        if t != s {
          SectionsShareNoOps(s, t, was, wants);
        } else if i < |ops| {
          assert ops[i] in ops;
          DoneElsewhere(s, was, wants, ops[i]);
        } else {
          assert more[i - |ops|].SetOp?;
        }
      }
    }
  }

  /** Appends the operations of a section diffed key by key. */
  method AppendKeyed(ops: seq<ConfigOp>, s: Section, was: Object, wants: Object) returns (r: seq<ConfigOp>)
    requires Keyed(s) && Lists(ops, Rank(s), was, wants)
    ensures Lists(r, Rank(s) + 1, was, wants)
  {
    var more := DiffKeyedSection(was, wants, Text(s), Keys(s));
    AddSection(ops, more, s, was, wants);
    r := ops + more;
  }

  /** Appends the operations of a section set or unset as a whole. */
  method AppendObject(ops: seq<ConfigOp>, s: Section, was: Object, wants: Object) returns (r: seq<ConfigOp>)
    requires !Keyed(s) && !Replaced(s) && Lists(ops, Rank(s), was, wants)
    ensures Lists(r, Rank(s) + 1, was, wants)
  {
    var more := DiffObjectSection(was, wants, Text(s), Keys(s));
    AddSection(ops, more, s, was, wants);
    r := ops + more;
  }

  /** Appends a whole-object replacement whenever the new config holds a map there. */
  method AppendReplaced(ops: seq<ConfigOp>, s: Section, was: Object, wants: Object) returns (r: seq<ConfigOp>)
    requires Replaced(s) && Lists(ops, Rank(s), was, wants)
    ensures Lists(r, Rank(s) + 1, was, wants)
  {
    var m := GetNestedMap(wants, Keys(s));
    var more := [];
    if m.Some? {
      more := [SetOp(Text(s), Strict(Some(Obj(m.value))), true)];
    }
    AddSection(ops, more, s, was, wants);
    r := ops + more;
  }

  ghost predicate Lists(ops: seq<ConfigOp>, n: nat, was: Object, wants: Object) {
    Enumerates(ops, OpsUpTo(n, was, wants)) && UnsetsFirst(ops, was, wants)
  }

  lemma AllSectionsListed(ops: seq<ConfigOp>, was: Object, wants: Object)
    requires Lists(ops, 11, was, wants)
    ensures Enumerates(ops, DiffOps(was, wants)) && UnsetsFirst(ops, was, wants)
  {
    assert OpsUpTo(11, was, wants) == DiffOps(was, wants);
  }

  /** Providers, plugins and the two model objects. */
  method DiffModelsAndPlugins(was: Object, wants: Object) returns (ops: seq<ConfigOp>)
    ensures Lists(ops, 5, was, wants)
  {
    ops := AppendKeyed([], Providers, was, wants);
    ops := AppendKeyed(ops, Entries, was, wants);
    ops := AppendObject(ops, Allow, was, wants);
    ops := AppendReplaced(ops, ModelCatalog, was, wants);
    ops := AppendReplaced(ops, ModelDefaults, was, wants);
  }

  function ObjectSection(n: nat): (s: Section)
    requires 5 <= n < 11
    ensures Rank(s) == n && !Keyed(s) && !Replaced(s)
  {
    if n == 5 then Assistant
    else if n == 6 then AllowBundled
    else if n == 7 then Browser
    else if n == 8 then Search
    else if n == 9 then AuthProfiles
    else AgentsList
  }

  /** The remaining whole-object sections. */
  method DiffObjects(first: seq<ConfigOp>, was: Object, wants: Object) returns (ops: seq<ConfigOp>)
    requires Lists(first, 5, was, wants)
    ensures Lists(ops, 11, was, wants)
  {
    ops := first;
    for n := 5 to 11
      invariant Lists(ops, n, was, wants)
    {
      ops := AppendObject(ops, ObjectSection(n), was, wants);
    }
  }

  // ---- Which operations there are, told from the two configs ----

  /** An owned object that the new config holds is replaced, whatever the old one holds. */
  ghost predicate IsReplacement(op: ConfigOp, wants: Object) {
    exists s: Section | Replaced(s) ::
      var m := NestedMap(Obj(wants), Keys(s));
      m.Some? && op == SetOp(Text(s), Strict(Some(Obj(m.value))), true)
  }

  /** A section that is kept as a whole and reads differently in the two configs, null reading as absent, is set to what
      the new one holds, or unset when that is nothing. */
  ghost predicate IsWholeChange(op: ConfigOp, was: Object, wants: Object) {
    exists s: Section | !Keyed(s) && !Replaced(s) ::
      var a, b := NestedValue(Obj(was), Keys(s)), NestedValue(Obj(wants), Keys(s));
      a != b && op == if b.Some? then SetOp(Text(s), Strict(b), false) else UnsetOp(Text(s))
  }

  /** A name of a keyed section that reads differently in the two configs is set, or unset when it is gone. */
  ghost predicate IsNamedChange(op: ConfigOp, was: Object, wants: Object) {
    exists s: Section, name | Keyed(s) :: NamedChange(s, name, op, was, wants)
  }

  predicate NamedChange(s: Section, name: string, op: ConfigOp, was: Object, wants: Object) {
    var p := Keys(s) + [name];
    && Get(Obj(was), p) != Get(Obj(wants), p)
    && var path := Text(s) + "." + name;
       op == if Get(Obj(wants), p).Some? then SetOp(path, Strict(Get(Obj(wants), p)), false) else UnsetOp(path)
  }

  ghost predicate IsNeeded(op: ConfigOp, was: Object, wants: Object) {
    IsReplacement(op, wants) || IsWholeChange(op, was, wants) || IsNamedChange(op, was, wants)
  }

  lemma ReadsByName(j: Json, keys: Path, name: string)
    ensures Get(j, keys + [name]) == if name in FieldsAt(j, keys) then Some(FieldsAt(j, keys)[name]) else None
  {
    GetSnoc(j, keys, name);
  }

  lemma NamedOpIsChange(s: Section, was: Object, wants: Object, op: ConfigOp)
    requires Keyed(s) && op in SectionOps(s, was, wants)
    ensures IsNamedChange(op, was, wants)
  {
    var name := NameOf(s, was, wants, op);
    ReadsByName(Obj(was), Keys(s), name);
    ReadsByName(Obj(wants), Keys(s), name);
    assert NamedChange(s, name, op, was, wants);
  }

  lemma ChangeIsNamedOp(s: Section, name: string, was: Object, wants: Object, op: ConfigOp)
    requires Keyed(s) && NamedChange(s, name, op, was, wants)
    ensures op in SectionOps(s, was, wants)
  {
    var a, b := FieldsAt(Obj(was), Keys(s)), FieldsAt(Obj(wants), Keys(s));
    ReadsByName(Obj(was), Keys(s), name);
    ReadsByName(Obj(wants), Keys(s), name);
    if name in b {
      assert Changed(a, b, name) && op == SetNamed(Text(s), name, b[name]);
    } else {
      assert Removed(a, b, name) && op == UnsetNamed(Text(s), name);
    }
  }

  lemma WholeOpIs(s: Section, was: Object, wants: Object, op: ConfigOp)
    requires !Keyed(s)
    ensures op in SectionOps(s, was, wants) <==>
            if Replaced(s) then
              var m := NestedMap(Obj(wants), Keys(s));
              m.Some? && op == SetOp(Text(s), Strict(Some(Obj(m.value))), true)
            else
              var a, b := NestedValue(Obj(was), Keys(s)), NestedValue(Obj(wants), Keys(s));
              a != b && op == if b.Some? then SetOp(Text(s), Strict(b), false) else UnsetOp(Text(s))
  {
  }

  /** The diff has exactly the operations that the two configs call for. */
  lemma DiffIsWhatIsNeeded(was: Object, wants: Object, op: ConfigOp)
    ensures op in DiffOps(was, wants) <==> IsNeeded(op, was, wants)
  {
    if op in DiffOps(was, wants) {
      var s: Section :| op in SectionOps(s, was, wants);
      if Keyed(s) {
        NamedOpIsChange(s, was, wants, op);
      } else {
        WholeOpIs(s, was, wants, op);
      }
    }
    if IsNamedChange(op, was, wants) {
      var s: Section, name :| Keyed(s) && NamedChange(s, name, op, was, wants);
      ChangeIsNamedOp(s, name, was, wants, op);
    } else if IsNeeded(op, was, wants) {
      NeededIsWholeOp(was, wants, op);
    }
  }

  lemma NeededIsWholeOp(was: Object, wants: Object, op: ConfigOp)
    requires IsReplacement(op, wants) || IsWholeChange(op, was, wants)
    ensures exists s: Section :: !Keyed(s) && op in SectionOps(s, was, wants)
  {
    forall s: Section | !Keyed(s)
      ensures op in SectionOps(s, was, wants) <==>
              if Replaced(s) then
                var m := NestedMap(Obj(wants), Keys(s));
                m.Some? && op == SetOp(Text(s), Strict(Some(Obj(m.value))), true)
              else
                var a, b := NestedValue(Obj(was), Keys(s)), NestedValue(Obj(wants), Keys(s));
                a != b && op == if b.Some? then SetOp(Text(s), Strict(b), false) else UnsetOp(Text(s))
    {
      WholeOpIs(s, was, wants, op);
    }
  }

  /** The diff of two config documents; `None` is a document that does not parse to an object. */
  method BuildConfigOps(oldConfig: Option<Object>, newConfig: Option<Object>)
    returns (r: Result<seq<ConfigOp>, string>)
    ensures r.Ok? <==> oldConfig.Some? && newConfig.Some?
    ensures r.Ok? ==> Enumerates(r.value, DiffOps(oldConfig.value, newConfig.value))
    ensures r.Ok? ==> UnsetsFirst(r.value, oldConfig.value, newConfig.value)
    ensures r.Ok? ==> NoDuplicates(r.value) && forall op :: op in r.value <==> IsNeeded(op, oldConfig.value, newConfig.value)
    ensures r.Ok? && oldConfig == newConfig ==> forall op :: op in r.value <==> IsReplacement(op, newConfig.value)
  {
    if oldConfig.None? {
      return Err("parse old config");
    }
    if newConfig.None? {
      return Err("parse new config");
    }
    var was, wants := oldConfig.value, newConfig.value;
    var ops := DiffModelsAndPlugins(was, wants);
    ops := DiffObjects(ops, was, wants);
    AllSectionsListed(ops, was, wants);
    forall op
      ensures op in ops <==> IsNeeded(op, was, wants)
    {
      DiffIsWhatIsNeeded(was, wants, op);
    }
    return Ok(ops);
  }

  // ---- What pushing the diff achieves ----

  /** Every name a keyed section must set or unset can stand in a dotted path. */
  ghost predicate CleanIn(s: Section, was: Object, wants: Object) {
    forall name | Keyed(s) && Touched(s, was, wants, name) :: Clean(name)
  }

  ghost predicate CleanNames(was: Object, wants: Object) {
    forall s: Section :: CleanIn(s, was, wants)
  }

  predicate Touched(s: Section, was: Object, wants: Object, name: string) {
    var a, b := FieldsAt(Obj(was), Keys(s)), FieldsAt(Obj(wants), Keys(s));
    Removed(a, b, name) || Changed(a, b, name)
  }

  predicate AgreesOn(s: Section, got: Json, wants: Object) {
    if Keyed(s) then
      FieldsAt(got, Keys(s)) == FieldsAt(Obj(wants), Keys(s))
    else if Replaced(s) then
      NestedMap(Obj(wants), Keys(s)).Some? ==> NestedMap(got, Keys(s)) == NestedMap(Obj(wants), Keys(s))
    else
      NestedValue(got, Keys(s)) == NestedValue(Obj(wants), Keys(s))
  }

  /** A document that reads like `wants` on every managed section. */
  ghost predicate Agrees(got: Json, wants: Object) {
    forall s: Section :: AgreesOn(s, got, wants)
  }

  /** The path of an operation of a keyed section with clean names. */
  lemma KeyedOpPath(s: Section, was: Object, wants: Object, op: ConfigOp) returns (name: string)
    requires Keyed(s) && CleanIn(s, was, wants) && op in SectionOps(s, was, wants)
    ensures Touched(s, was, wants, name) && PathOf(op) == Keys(s) + [name]
    ensures var b := FieldsAt(Obj(wants), Keys(s));
            op == if name in b then SetNamed(Text(s), name, b[name]) else UnsetNamed(Text(s), name)
  {
    name := NameOf(s, was, wants, op);
    SectionSegments(s);
    SegmentsOfMember(Text(s), name);
  }

  lemma DifferentOpsIncomparable(s: Section, a: ConfigOp, t: Section, b: ConfigOp, was: Object, wants: Object)
    requires CleanIn(s, was, wants) && a != b
    requires a in SectionOps(s, was, wants) && b in SectionOps(t, was, wants)
    ensures Incomparable(PathOf(a), PathOf(b))
  {
    OpInItsSection(s, was, wants, a);
    OpInItsSection(t, was, wants, b);
    if s != t {
      PathsOfTwoSections(s, PathOf(a), t, PathOf(b));
    } else {
      assert Keyed(s);
      var x := KeyedOpPath(s, was, wants, a);
      var y := KeyedOpPath(s, was, wants, b);
      assert PathOf(a)[|Keys(s)|] != PathOf(b)[|Keys(s)|];
    }
  }

  lemma DiffOpsIncomparable(was: Object, wants: Object, ops: seq<ConfigOp>)
    requires CleanNames(was, wants) && Enumerates(ops, DiffOps(was, wants))
    ensures PairwiseIncomparable(ops)
  {
    forall i, k | 0 <= i < k < |ops|
      ensures Incomparable(PathOf(ops[i]), PathOf(ops[k]))
    {
      assert ops[i] in ops && ops[k] in ops;
      var s: Section :| ops[i] in SectionOps(s, was, wants);
      var t: Section :| ops[k] in SectionOps(t, was, wants);
      DifferentOpsIncomparable(s, ops[i], t, ops[k], was, wants);
    }
  }

  /** Frame: a path incomparable to every managed section reads the same before and after a push. */
  lemma PushKeepsTheRest(was: Object, wants: Object, ops: seq<ConfigOp>, q: Path)
    requires Enumerates(ops, DiffOps(was, wants))
    requires forall s: Section :: Incomparable(Keys(s), q)
    ensures Get(AppliedAll(Obj(was), ops), q) == Get(Obj(was), q)
  {
    forall op | op in ops
      ensures Incomparable(PathOf(op), q)
    {
      var s: Section :| op in SectionOps(s, was, wants);
      OpInItsSection(s, was, wants, op);
      IncomparableExtend(Keys(s), q, PathOf(op)[|Keys(s)|..], []);
      assert q + [] == q && PathOf(op) == Keys(s) + PathOf(op)[|Keys(s)|..];
    }
    ReadElsewhere(Obj(was), ops, q);
  }

  /** A path inside no operation of the diff reads as in the old document. */
  lemma Unwritten(was: Object, wants: Object, ops: seq<ConfigOp>, s: Section, q: Path)
    requires Enumerates(ops, DiffOps(was, wants)) && Keys(s) <= q
    requires forall op | op in SectionOps(s, was, wants) :: Incomparable(PathOf(op), q)
    ensures Get(AppliedAll(Obj(was), ops), q) == Get(Obj(was), q)
  {
    forall op | op in ops
      ensures Incomparable(PathOf(op), q)
    {
      var t: Section :| op in SectionOps(t, was, wants);
      OpInItsSection(t, was, wants, op);
      if t != s {
        PathsOfTwoSections(t, PathOf(op), s, q);
      }
    }
    ReadElsewhere(Obj(was), ops, q);
  }

  /** A written path reads as its operation wrote it. */
  lemma Written(j: Json, was: Object, wants: Object, ops: seq<ConfigOp>, s: Section, op: ConfigOp)
    requires CleanIn(s, was, wants) && Enumerates(ops, DiffOps(was, wants)) && op in SectionOps(s, was, wants)
    ensures EditOf(op).Put? ==> Get(AppliedAll(j, ops), PathOf(op)) == Some(EditOf(op).value)
    ensures EditOf(op).Drop? ==> Get(AppliedAll(j, ops), PathOf(op)) == None
  {
    OpInItsSection(s, was, wants, op);
    assert op in DiffOps(was, wants);
    var i :| 0 <= i < |ops| && ops[i] == op;
    forall k | i < k < |ops|
      ensures Incomparable(PathOf(ops[k]), PathOf(op))
    {
      assert ops[k] in ops;
      var t: Section :| ops[k] in SectionOps(t, was, wants);
      DifferentOpsIncomparable(s, op, t, ops[k], was, wants);
    }
    ReadWritten(j, ops, i);
  }

  /** Name by name, a keyed section reads like the new config after a push. */
  lemma KeyedNameAgrees(was: Object, wants: Object, ops: seq<ConfigOp>, s: Section, name: string)
    requires Keyed(s) && CleanIn(s, was, wants) && Enumerates(ops, DiffOps(was, wants))
    ensures Get(AppliedAll(Obj(was), ops), Keys(s) + [name]) == Get(Obj(wants), Keys(s) + [name])
  {
    var a, b := FieldsAt(Obj(was), Keys(s)), FieldsAt(Obj(wants), Keys(s));
    GetSnoc(Obj(was), Keys(s), name);
    GetSnoc(Obj(wants), Keys(s), name);
    SectionSegments(s);
    SegmentsOfMember(Text(s), name);
    if Removed(a, b, name) {
      assert Touched(s, was, wants, name);
      Written(Obj(was), was, wants, ops, s, UnsetNamed(Text(s), name));
    } else if Changed(a, b, name) {
      assert Touched(s, was, wants, name);
      Written(Obj(was), was, wants, ops, s, SetNamed(Text(s), name, b[name]));
    } else {
      forall op | op in SectionOps(s, was, wants)
        ensures Incomparable(PathOf(op), Keys(s) + [name])
      {
        var other := KeyedOpPath(s, was, wants, op);
        assert other != name;
        assert PathOf(op)[|Keys(s)|] != (Keys(s) + [name])[|Keys(s)|];
      }
      Unwritten(was, wants, ops, s, Keys(s) + [name]);
    }
  }

  /** Documents that read alike name by name have the same section. */
  lemma SectionFromNames(s: Section, got: Json, wants: Object)
    requires forall name :: Get(got, Keys(s) + [name]) == Get(Obj(wants), Keys(s) + [name])
    ensures FieldsAt(got, Keys(s)) == FieldsAt(Obj(wants), Keys(s))
  {
    var x, y := FieldsAt(got, Keys(s)), FieldsAt(Obj(wants), Keys(s));
    forall name
      ensures name in x <==> name in y
      ensures name in x ==> x[name] == y[name]
    {
      SameName(got, Obj(wants), Keys(s), name);
    }
    assert x == y;
  }

  lemma SameName(a: Json, b: Json, keys: Path, name: string)
    requires Get(a, keys + [name]) == Get(b, keys + [name])
    ensures name in FieldsAt(a, keys) <==> name in FieldsAt(b, keys)
    ensures name in FieldsAt(a, keys) ==> FieldsAt(a, keys)[name] == FieldsAt(b, keys)[name]
  {
    GetSnoc(a, keys, name);
    GetSnoc(b, keys, name);
  }

  lemma KeyedSectionAgrees(was: Object, wants: Object, ops: seq<ConfigOp>, s: Section)
    requires Keyed(s) && CleanIn(s, was, wants) && Enumerates(ops, DiffOps(was, wants))
    ensures FieldsAt(AppliedAll(Obj(was), ops), Keys(s)) == FieldsAt(Obj(wants), Keys(s))
  {
    forall name
      ensures Get(AppliedAll(Obj(was), ops), Keys(s) + [name]) == Get(Obj(wants), Keys(s) + [name])
    {
      KeyedNameAgrees(was, wants, ops, s, name);
    }
    SectionFromNames(s, AppliedAll(Obj(was), ops), wants);
  }

  lemma WholeSectionAgrees(was: Object, wants: Object, ops: seq<ConfigOp>, s: Section)
    requires Enumerates(ops, DiffOps(was, wants)) && !Keyed(s)
    ensures Replaced(s) && NestedMap(Obj(wants), Keys(s)).Some? ==>
              NestedMap(AppliedAll(Obj(was), ops), Keys(s)) == NestedMap(Obj(wants), Keys(s))
    ensures !Replaced(s) ==> NestedValue(AppliedAll(Obj(was), ops), Keys(s)) == NestedValue(Obj(wants), Keys(s))
  {
    var section := WholeSectionOps(s, was, wants);
    if section == [] {
      Unwritten(was, wants, ops, s, Keys(s));
    } else {
      var op := section[0];
      assert op in section;
      SectionSegments(s);
      Written(Obj(was), was, wants, ops, s, op);
    }
  }

  /** Diff then apply is correct, whatever order the operations are applied in. */
  lemma PushAgrees(was: Object, wants: Object, ops: seq<ConfigOp>)
    requires CleanNames(was, wants) && Enumerates(ops, DiffOps(was, wants))
    ensures Agrees(AppliedAll(Obj(was), ops), wants)
  {
    forall s: Section
      ensures AgreesOn(s, AppliedAll(Obj(was), ops), wants)
    {
      if Keyed(s) {
        KeyedSectionAgrees(was, wants, ops, s);
      } else {
        WholeSectionAgrees(was, wants, ops, s);
      }
    }
  }

  /** The owned model objects are repaired even on a machine whose document has drifted from `was`. */
  lemma DriftIsRepaired(drifted: Json, was: Object, wants: Object, ops: seq<ConfigOp>, s: Section)
    requires Enumerates(ops, DiffOps(was, wants)) && Replaced(s)
    ensures AgreesOn(s, AppliedAll(drifted, ops), wants)
  {
    var section := WholeSectionOps(s, was, wants);
    if section != [] {
      assert section[0] in section;
      SectionSegments(s);
      Written(drifted, was, wants, ops, s, section[0]);
    }
  }
}
