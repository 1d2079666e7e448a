/** Connecting and disconnecting a channel: the operation lists and what they do to the stored config. */
module ChannelOps {
  import opened Common
  import opened JsonTree
  import opened DotPath
  import opened ConfigOps

  datatype Action = Add | Remove

  // ---- plugins.allow ----

  function Strings(items: seq<Json>): seq<string> {
    if items == [] then []
    else (if items[0].Str? then [items[0].text] else []) + Strings(items[1..])
  }

  function AsJson(names: seq<string>): seq<Json> {
    seq(|names|, i requires 0 <= i < |names| => Str(names[i]))
  }

  const AllowKeys: Path := ["plugins", "allow"]

  /** The plugin names listed under `plugins.allow`; anything else there is passed over. */
  function AllowList(config: Json): seq<string> {
    match Get(config, AllowKeys)
    case Some(Arr(items)) => Strings(items)
    case _ => []
  }

  function Filtered<T(==)>(s: seq<T>, x: T): seq<T> {
    if s == [] then [] else (if s[0] != x then [s[0]] else []) + Filtered(s[1..], x)
  }

  lemma {:induction false} FilteredSnoc<T>(s: seq<T>, y: T, x: T)
    ensures Filtered(s + [y], x) == Filtered(s, x) + if y != x then [y] else []
  {
    if s == [] {
      assert s + [y] == [y];
    } else {
      assert (s + [y])[1..] == s[1..] + [y];
      FilteredSnoc(s[1..], y, x);
    }
  }

  lemma {:induction false} FilteredAbsent<T>(s: seq<T>, x: T)
    requires x !in s
    ensures Filtered(s, x) == s
  {
    if s != [] {
      FilteredAbsent(s[1..], x);
    }
  }

  /** Compacts the array onto its own front: a plain filter, although reads and writes share the storage. */
  method FilterInPlace(allow: array<string>, pluginID: string) returns (n: nat)
    modifies allow
    ensures n <= allow.Length
    ensures allow[..n] == Filtered(old(allow[..]), pluginID)
  {
    n := 0;
    for i := 0 to allow.Length
      invariant n <= i
      invariant allow[..n] == Filtered(old(allow[..])[..i], pluginID)
      invariant forall j :: i <= j < allow.Length ==> allow[j] == old(allow[j])
    {
      var v := allow[i];
      assert v == old(allow[..])[i];
      assert old(allow[..])[..i + 1] == old(allow[..])[..i] + [v];
      FilteredSnoc(old(allow[..])[..i], v, pluginID);
      if v != pluginID {
        ghost var kept := allow[..n];
        allow[n] := v;
        n := n + 1;
        assert allow[..n] == kept + [v];
      }
    }
    assert old(allow[..])[..allow.Length] == old(allow[..]);
  }

  /** The new allow list; an empty list that never held a name is encoded as JSON null. */
  function NewAllow(allow: seq<string>, pluginID: string, action: Action): Json {
    match action
    case Add => Arr(AsJson(if pluginID in allow then allow else allow + [pluginID]))
    case Remove => if allow == [] then Null else Arr(AsJson(Filtered(allow, pluginID)))
  }

  function AllowOp(config: Json, pluginID: string, action: Action): ConfigOp {
    SetOp(AllowPath, Strict(Some(NewAllow(AllowList(config), pluginID, action))), false)
  }

  lemma {:induction false} StringsSnoc(items: seq<Json>, j: Json)
    ensures Strings(items + [j]) == Strings(items) + if j.Str? then [j.text] else []
  {
    if items == [] {
      assert items + [j] == [j] && [j][1..] == [];
    } else {
      assert (items + [j])[0] == items[0] && (items + [j])[1..] == items[1..] + [j];
      StringsSnoc(items[1..], j);
      Assoc(if items[0].Str? then [items[0].text] else [], Strings(items[1..]), if j.Str? then [j.text] else []);
    }
  }

  method PluginsAllowOps(config: Object, pluginID: string, action: Action) returns (ops: seq<ConfigOp>)
    ensures ops == [AllowOp(Obj(config), pluginID, action)]
  {
    var allow: seq<string> := [];
    ReadAllow(config);
    if "plugins" in config && config["plugins"].Obj? {
      var plugins := config["plugins"].fields;
      if "allow" in plugins && plugins["allow"].Arr? {
        var arr := plugins["allow"].items;
        for i := 0 to |arr|
          invariant allow == Strings(arr[..i])
        {
          assert arr[..i + 1] == arr[..i] + [arr[i]];
          StringsSnoc(arr[..i], arr[i]);
          if arr[i].Str? {
            allow := allow + [arr[i].text];
          }
        }
        assert arr[..|arr|] == arr;
      }
    }
    var value: Json;
    match action {
      case Add =>
        if pluginID !in allow {
          allow := allow + [pluginID];
        }
        value := Arr(AsJson(allow));
      case Remove =>
        if |allow| == 0 {
          value := Null;
        } else {
          var backing := new string[|allow|](i requires 0 <= i < |allow| => allow[i]);
          assert backing[..] == allow;
          var n := FilterInPlace(backing, pluginID);
          value := Arr(AsJson(backing[..n]));
        }
    }
    return [SetOp(AllowPath, Strict(Some(value)), false)];
  }

  lemma ReadAllow(config: Object)
    ensures AllowList(Obj(config)) ==
            if "plugins" in config && config["plugins"].Obj? && "allow" in config["plugins"].fields
               && config["plugins"].fields["allow"].Arr?
            then Strings(config["plugins"].fields["allow"].items) else []
  {
    assert AllowKeys[1..] == ["allow"];
    if "plugins" in config {
      assert Get(Obj(config), AllowKeys) == Get(config["plugins"], ["allow"]);
    }
  }

  // ---- The two operation lists ----

  const AllowPath := "plugins" + "." + "allow"

  function ChannelPath(id: string): string {
    "channels" + "." + id
  }

  function EntryPath(id: string): string {
    "plugins" + "." + "entries" + "." + id
  }

  function ConnectOps(config: Json, id: string, channel: Object): seq<ConfigOp> {
    [SetOp(ChannelPath(id), Strict(Some(Obj(channel))), false),
     SetOp(EntryPath(id) + "." + "enabled", Strict(Some(Bool(true))), false),
     AllowOp(config, id, Add)]
  }

  function DisconnectOps(config: Json, id: string): seq<ConfigOp> {
    [UnsetOp(ChannelPath(id)), UnsetOp(EntryPath(id)), AllowOp(config, id, Remove)]
  }

  function ChannelKeys(id: string): Path {
    ["channels", id]
  }

  function EntryKeys(id: string): Path {
    ["plugins", "entries", id]
  }

  lemma OneSegment(name: string)
    requires Clean(name)
    ensures Segments(name) == [name]
  {
    CutWithoutDot("", name);
    assert "" + name == name;
  }

  lemma PathsOf(id: string)
    requires Clean(id)
    ensures Segments(ChannelPath(id)) == ChannelKeys(id)
    ensures Segments(EntryPath(id)) == EntryKeys(id)
    ensures Segments(EntryPath(id) + "." + "enabled") == EntryKeys(id) + ["enabled"]
    ensures Segments(AllowPath) == AllowKeys
  {
    OneSegment(id);
    OneSegment("channels");
    OneSegment("plugins");
    OneSegment("entries");
    OneSegment("allow");
    OneSegment("enabled");
    CutAtDot("", "channels", id);
    CutAtDot("", "plugins", "allow");
    CutAtDot("", "plugins", "entries");
    CutAtDot("", "plugins" + "." + "entries", id);
    CutAtDot("", EntryPath(id), "enabled");
  }

  // ---- Disconnect inverts connect ----

  function AfterConnect(config: Json, id: string, channel: Object): Json {
    AppliedAll(config, ConnectOps(config, id, channel))
  }

  function AfterDisconnect(config: Json, id: string): Json {
    AppliedAll(config, DisconnectOps(config, id))
  }

  /** The config knows nothing of the channel yet. */
  predicate Lacks(config: Json, id: string) {
    Get(config, ChannelKeys(id)) == None && Get(config, EntryKeys(id)) == None && id !in AllowList(config)
  }

  /** The objects that a connect may have to create. */
  predicate IsParent(p: Path) {
    p <= ["channels"] || p <= ["plugins", "entries"]
  }

  predicate ObjectOrAbsent(v: Option<Json>) {
    v.None? || v.value.Obj?
  }

  /** `plugins.allow` is missing, null, or a list of names only. */
  predicate PlainAllow(v: Option<Json>) {
    v.None? || v.value.Null? || (v.value.Arr? && AsJson(Strings(v.value.items)) == v.value.items)
  }

  /** The same value, where a parent may have turned from absent into an object. */
  predicate SameAt(p: Path, was: Option<Json>, now: Option<Json>) {
    if IsParent(p) then ObjectOrAbsent(was) && now.Some? && now.value.Obj?
    else was == now
  }

  /** The same allow list, where a missing or null one may have turned into an empty one. */
  predicate SameAllow(was: Option<Json>, now: Option<Json>) {
    was == now || ((was.None? || was.value.Null?) && now == Some(Arr([])))
  }

  ghost predicate Restored(was: Json, now: Json) {
    && SameAllow(Get(was, AllowKeys), Get(now, AllowKeys))
    && forall p: Path | !(AllowKeys <= p) :: SameAt(p, Get(was, p), Get(now, p))
  }

  /** Nothing is below a path that holds nothing. */
  lemma {:induction false} NothingBelow(j: Json, p: Path, q: Path)
    requires Get(j, p) == None && p <= q
    ensures Get(j, q) == None
    decreases |p|
  {
    if p != [] && p[0] in FieldsOf(j) {
      assert p[1..] <= q[1..];
      NothingBelow(FieldsOf(j)[p[0]], p[1..], q[1..]);
    }
  }

  /** The prefixes of a path that an edit puts a value at all hold objects afterwards. */
  lemma {:induction false} PutMakesParents(j: Json, p: Path, v: Json, q: Path)
    requires q <= p && q != p
    ensures Get(Edited(j, p, Put(v)), q).Some? && Get(Edited(j, p, Put(v)), q).value.Obj?
    decreases |p|
  {
    if q != [] {
      assert q[1..] <= p[1..] && q[1..] != p[1..];
      PutMakesParents(Child(j, p[0]), p[1..], v, q[1..]);
    }
  }

  /** An edit keeps every object that lies strictly above its path. */
  lemma {:induction false} EditKeepsObjectsAbove(j: Json, p: Path, e: Edit, q: Path)
    requires q <= p && q != p && Get(j, q).Some? && Get(j, q).value.Obj?
    ensures Get(Edited(j, p, e), q).Some? && Get(Edited(j, p, e), q).value.Obj?
    decreases |p|
  {
    if q != [] {
      assert q[1..] <= p[1..] && q[1..] != p[1..];
      EditKeepsObjectsAbove(Child(j, p[0]), p[1..], e, q[1..]);
    }
  }

  lemma EditKeepsObjects(j: Json, p: Path, e: Edit, q: Path)
    requires !(p <= q) && Get(j, q).Some? && Get(j, q).value.Obj?
    ensures Get(Edited(j, p, e), q).Some? && Get(Edited(j, p, e), q).value.Obj?
  {
    if q <= p {
      EditKeepsObjectsAbove(j, p, e, q);
    } else {
      GetElsewhere(j, p, e, q);
    }
  }

  lemma {:induction false} StringsOfNames(names: seq<string>)
    ensures Strings(AsJson(names)) == names
  {
    if names != [] {
      assert AsJson(names)[1..] == AsJson(names[1..]);
      StringsOfNames(names[1..]);
    }
  }

  lemma ThreeApplied(j: Json, a: ConfigOp, b: ConfigOp, c: ConfigOp)
    ensures AppliedAll(j, [a, b, c]) == Applied(Applied(Applied(j, a), b), c)
  {
    assert [a, b, c][1..] == [b, c] && [b, c][1..] == [c] && [c][1..] == [];
    assert AppliedAll(j, [a, b, c]) == AppliedAll(Applied(j, a), [b, c]);
    var i := Applied(j, a);
    assert AppliedAll(i, [b, c]) == AppliedAll(Applied(i, b), [c]);
    var k := Applied(i, b);
    assert AppliedAll(k, [c]) == AppliedAll(Applied(k, c), []);
  }

  /** The allow list with the name in it once more, or as it is when it lists the name. */
  function Listed(names: seq<string>, id: string): seq<string> {
    if id in names then names else names + [id]
  }

  /** Connecting, as three edits. */
  lemma ConnectEdits(config: Json, id: string, channel: Object) returns (one: Json, two: Json, three: Json)
    requires Clean(id)
    ensures one == Edited(config, ChannelKeys(id), Put(Obj(channel)))
    ensures two == Edited(one, EntryKeys(id) + ["enabled"], Put(Bool(true)))
    ensures three == Edited(two, AllowKeys, Put(Arr(AsJson(Listed(AllowList(config), id)))))
    ensures AfterConnect(config, id, channel) == three
  {
    PathsOf(id);
    var ops := ConnectOps(config, id, channel);
    ThreeApplied(config, ops[0], ops[1], ops[2]);
    one := Applied(config, ops[0]);
    two := Applied(one, ops[1]);
    three := Applied(two, ops[2]);
  }

  lemma AllowAfterConnect(config: Json, id: string, channel: Object)
    requires Clean(id) && Lacks(config, id)
    ensures AllowList(AfterConnect(config, id, channel)) == AllowList(config) + [id]
  {
    var one, two, three := ConnectEdits(config, id, channel);
    GetEdited(two, AllowKeys, Put(Arr(AsJson(AllowList(config) + [id]))));
    StringsOfNames(AllowList(config) + [id]);
  }

  /** Disconnecting, as three edits. */
  lemma RemovalEdits(config: Json, id: string) returns (one: Json, two: Json, three: Json)
    requires Clean(id)
    ensures one == Edited(config, ChannelKeys(id), Drop)
    ensures two == Edited(one, EntryKeys(id), Drop)
    ensures three == Edited(two, AllowKeys, Put(NewAllow(AllowList(config), id, Remove)))
    ensures AfterDisconnect(config, id) == three
  {
    PathsOf(id);
    var ops := DisconnectOps(config, id);
    ThreeApplied(config, ops[0], ops[1], ops[2]);
    one := Applied(config, ops[0]);
    two := Applied(one, ops[1]);
    three := Applied(two, ops[2]);
  }

  /** Disconnecting what was just connected, as three edits. */
  lemma DisconnectEdits(config: Json, id: string, channel: Object) returns (four: Json, five: Json, six: Json)
    requires Clean(id) && Lacks(config, id)
    ensures four == Edited(AfterConnect(config, id, channel), ChannelKeys(id), Drop)
    ensures five == Edited(four, EntryKeys(id), Drop)
    ensures six == Edited(five, AllowKeys, Put(Arr(AsJson(AllowList(config)))))
    ensures AfterDisconnect(AfterConnect(config, id, channel), id) == six
  {
    AllowAfterConnect(config, id, channel);
    FilteredSnoc(AllowList(config), id, id);
    FilteredAbsent(AllowList(config), id);
    assert Filtered(AllowList(config) + [id], id) == AllowList(config);
    four, five, six := RemovalEdits(AfterConnect(config, id, channel), id);
  }

  /** Whatever the config held before: connecting writes the channel, switches its plugin entry on and lists its name. */
  lemma ConnectWrites(config: Json, id: string, channel: Object)
    requires Clean(id)
    ensures Get(AfterConnect(config, id, channel), ["channels", id]) == Some(Obj(channel))
    ensures Get(AfterConnect(config, id, channel), ["plugins", "entries", id, "enabled"]) == Some(Bool(true))
    ensures AllowList(AfterConnect(config, id, channel))
            == if id in AllowList(config) then AllowList(config) else AllowList(config) + [id]
  {
    var one, two, three := ConnectEdits(config, id, channel);
    var names := Listed(AllowList(config), id);
    var allow := Put(Arr(AsJson(names)));
    ChannelPathsIncomparable(id);
    var enabled := EntryKeys(id) + ["enabled"];
    assert enabled == ["plugins", "entries", id, "enabled"] && enabled[1] != AllowKeys[1];
    GetEdited(config, ChannelKeys(id), Put(Obj(channel)));
    GetElsewhere(one, enabled, Put(Bool(true)), ChannelKeys(id));
    GetElsewhere(two, AllowKeys, allow, ChannelKeys(id));
    GetEdited(one, enabled, Put(Bool(true)));
    GetElsewhere(two, AllowKeys, allow, enabled);
    GetEdited(two, AllowKeys, allow);
    StringsOfNames(names);
  }

  lemma ConnectKeepsTheRest(config: Json, id: string, channel: Object, p: Path)
    requires Clean(id) && Incomparable(["channels", id], p)
    requires Incomparable(["plugins", "entries", id, "enabled"], p) && Incomparable(["plugins", "allow"], p)
    ensures Get(AfterConnect(config, id, channel), p) == Get(config, p)
  {
    var one, two, three := ConnectEdits(config, id, channel);
    assert EntryKeys(id) + ["enabled"] == ["plugins", "entries", id, "enabled"];
    GetElsewhere(config, ChannelKeys(id), Put(Obj(channel)), p);
    GetElsewhere(one, EntryKeys(id) + ["enabled"], Put(Bool(true)), p);
    GetElsewhere(two, AllowKeys, Put(Arr(AsJson(Listed(AllowList(config), id)))), p);
  }

  /** Whatever the config held before: disconnecting removes the channel and its whole plugin entry, and takes its name
      off the list in the order of the rest; a list without names turns into null. */
  lemma DisconnectRemoves(config: Json, id: string)
    requires Clean(id)
    ensures Get(AfterDisconnect(config, id), ["channels", id]) == None
    ensures Get(AfterDisconnect(config, id), ["plugins", "entries", id]) == None
    ensures AllowList(AfterDisconnect(config, id)) == Filtered(AllowList(config), id)
    ensures Get(AfterDisconnect(config, id), ["plugins", "allow"])
            == Some(if AllowList(config) == [] then Null else Arr(AsJson(Filtered(AllowList(config), id))))
  {
    var one, two, three := RemovalEdits(config, id);
    var allow := Put(NewAllow(AllowList(config), id, Remove));
    ChannelPathsIncomparable(id);
    GetEdited(config, ChannelKeys(id), Drop);
    GetElsewhere(one, EntryKeys(id), Drop, ChannelKeys(id));
    GetElsewhere(two, AllowKeys, allow, ChannelKeys(id));
    GetEdited(one, EntryKeys(id), Drop);
    GetElsewhere(two, AllowKeys, allow, EntryKeys(id));
    GetEdited(two, AllowKeys, allow);
    StringsOfNames(Filtered(AllowList(config), id));
  }

  lemma DisconnectKeepsTheRest(config: Json, id: string, p: Path)
    requires Clean(id) && Incomparable(["channels", id], p)
    requires Incomparable(["plugins", "entries", id], p) && Incomparable(["plugins", "allow"], p)
    ensures Get(AfterDisconnect(config, id), p) == Get(config, p)
  {
    var one, two, three := RemovalEdits(config, id);
    GetElsewhere(config, ChannelKeys(id), Drop, p);
    GetElsewhere(one, EntryKeys(id), Drop, p);
    GetElsewhere(two, AllowKeys, Put(NewAllow(AllowList(config), id, Remove)), p);
  }

  function Cycled(config: Json, id: string, channel: Object): Json {
    AfterDisconnect(AfterConnect(config, id, channel), id)
  }

  lemma CycleKeepsTheRest(config: Json, id: string, channel: Object, p: Path)
    requires Clean(id) && Lacks(config, id)
    requires Incomparable(ChannelKeys(id), p) && Incomparable(EntryKeys(id), p) && Incomparable(AllowKeys, p)
    ensures Get(Cycled(config, id, channel), p) == Get(config, p)
  {
    var one, two, three := ConnectEdits(config, id, channel);
    var four, five, six := DisconnectEdits(config, id, channel);
    IncomparableExtend(EntryKeys(id), p, ["enabled"], []);
    assert p + [] == p;
    GetElsewhere(config, ChannelKeys(id), Put(Obj(channel)), p);
    GetElsewhere(one, EntryKeys(id) + ["enabled"], Put(Bool(true)), p);
    GetElsewhere(two, AllowKeys, Put(Arr(AsJson(AllowList(config) + [id]))), p);
    GetElsewhere(three, ChannelKeys(id), Drop, p);
    GetElsewhere(four, EntryKeys(id), Drop, p);
    GetElsewhere(five, AllowKeys, Put(Arr(AsJson(AllowList(config)))), p);
  }

  lemma ChannelPathsIncomparable(id: string)
    ensures Incomparable(ChannelKeys(id), EntryKeys(id)) && Incomparable(EntryKeys(id), AllowKeys)
    ensures Incomparable(ChannelKeys(id), AllowKeys)
  {
    assert "channels"[0] != "plugins"[0];
    assert "entries"[0] != "allow"[0];
    assert ChannelKeys(id)[0] != EntryKeys(id)[0] && EntryKeys(id)[1] != AllowKeys[1];
  }

  /** The channel and its plugin entry are gone again, and the allow list holds the old names. */
  lemma CycleCleansUp(config: Json, id: string, channel: Object)
    requires Clean(id) && Lacks(config, id)
    ensures Get(Cycled(config, id, channel), ChannelKeys(id)) == None
    ensures Get(Cycled(config, id, channel), EntryKeys(id)) == None
    ensures Get(Cycled(config, id, channel), AllowKeys) == Some(Arr(AsJson(AllowList(config))))
  {
    var four, five, six := DisconnectEdits(config, id, channel);
    ChannelPathsIncomparable(id);
    var allow := Put(Arr(AsJson(AllowList(config))));
    GetEdited(AfterConnect(config, id, channel), ChannelKeys(id), Drop);
    GetElsewhere(four, EntryKeys(id), Drop, ChannelKeys(id));
    GetElsewhere(five, AllowKeys, allow, ChannelKeys(id));
    GetEdited(four, EntryKeys(id), Drop);
    GetElsewhere(five, AllowKeys, allow, EntryKeys(id));
    GetEdited(five, AllowKeys, allow);
  }

  predicate IsObjectAt(j: Json, p: Path) {
    Get(j, p).Some? && Get(j, p).value.Obj?
  }

  /** The two sets of a connect make the parents, or keep them. */
  lemma ConnectMakesParents(config: Json, id: string, channel: Object, p: Path)
    requires Clean(id) && Lacks(config, id) && IsParent(p)
    ensures IsObjectAt(AfterConnect(config, id, channel), p)
  {
    var one, two, three := ConnectEdits(config, id, channel);
    ParentsAreAside(id, p);
    if p <= ["channels"] {
      assert ChannelKeys(id)[..1] == ["channels"];
      PutMakesParents(config, ChannelKeys(id), Obj(channel), p);
      EditKeepsObjects(one, EntryKeys(id) + ["enabled"], Put(Bool(true)), p);
    } else {
      assert (EntryKeys(id) + ["enabled"])[..2] == ["plugins", "entries"];
      PutMakesParents(one, EntryKeys(id) + ["enabled"], Bool(true), p);
    }
    EditKeepsObjects(two, AllowKeys, Put(Arr(AsJson(AllowList(config) + [id]))), p);
  }

  /** No edit of the cycle lies at a parent or above one. */
  lemma ParentsAreAside(id: string, p: Path)
    requires IsParent(p)
    ensures !(AllowKeys <= p) && !(ChannelKeys(id) <= p) && !(EntryKeys(id) <= p) && !(EntryKeys(id) + ["enabled"] <= p)
  {
    assert "channels"[0] != "plugins"[0] && "entries"[0] != "allow"[0];
    assert |p| <= 2 && (|p| == 2 ==> p[0] == "plugins" && p[1] == "entries");
    assert ChannelKeys(id)[0] == "channels" && AllowKeys[1] == "allow";
  }

  lemma CycleLeavesParents(config: Json, id: string, channel: Object, p: Path)
    requires Clean(id) && Lacks(config, id) && IsParent(p)
    ensures IsObjectAt(Cycled(config, id, channel), p)
  {
    var four, five, six := DisconnectEdits(config, id, channel);
    ConnectMakesParents(config, id, channel, p);
    ParentsAreAside(id, p);
    EditKeepsObjects(AfterConnect(config, id, channel), ChannelKeys(id), Drop, p);
    EditKeepsObjects(four, EntryKeys(id), Drop, p);
    EditKeepsObjects(five, AllowKeys, Put(Arr(AsJson(AllowList(config)))), p);
  }

  lemma StrictPrefixIsParent(id: string, p: Path)
    ensures p <= ChannelKeys(id) && p != ChannelKeys(id) ==> IsParent(p)
    ensures p <= EntryKeys(id) && p != EntryKeys(id) ==> IsParent(p)
    ensures p <= AllowKeys && p != AllowKeys ==> IsParent(p)
  {
    assert ChannelKeys(id)[..1] == ["channels"] && EntryKeys(id)[..2] == ["plugins", "entries"];
    assert AllowKeys[..1] == ["plugins", "entries"][..1];
    if |p| <= 1 {
      assert p <= ChannelKeys(id) ==> p <= ChannelKeys(id)[..1];
      assert p <= AllowKeys ==> p <= AllowKeys[..1];
    }
    if |p| <= 2 {
      assert p <= EntryKeys(id) ==> p <= EntryKeys(id)[..2];
    }
  }

  lemma WherePathsLie(id: string, p: Path)
    requires !(AllowKeys <= p) && !IsParent(p)
    ensures ChannelKeys(id) <= p || EntryKeys(id) <= p ||
            (Incomparable(ChannelKeys(id), p) && Incomparable(EntryKeys(id), p) && Incomparable(AllowKeys, p))
  {
    StrictPrefixIsParent(id, p);
  }

  lemma CycleAt(config: Json, id: string, channel: Object, p: Path)
    requires Clean(id) && Lacks(config, id) && !(AllowKeys <= p) && !IsParent(p)
    ensures Get(Cycled(config, id, channel), p) == Get(config, p)
  {
    CycleCleansUp(config, id, channel);
    WherePathsLie(id, p);
    if ChannelKeys(id) <= p {
      NothingBelow(config, ChannelKeys(id), p);
      NothingBelow(Cycled(config, id, channel), ChannelKeys(id), p);
    } else if EntryKeys(id) <= p {
      NothingBelow(config, EntryKeys(id), p);
      NothingBelow(Cycled(config, id, channel), EntryKeys(id), p);
    } else {
      CycleKeepsTheRest(config, id, channel, p);
    }
  }

  lemma AllowRestoredIffPlain(config: Json)
    ensures SameAllow(Get(config, AllowKeys), Some(Arr(AsJson(AllowList(config))))) <==> PlainAllow(Get(config, AllowKeys))
  {
    assert AsJson([]) == [];
  }

  /** Disconnecting undoes connecting exactly when the parents are objects or absent and
      `plugins.allow` is absent, null or a list of names. */
  lemma DisconnectInvertsConnect(config: Json, id: string, channel: Object)
    requires Clean(id) && Lacks(config, id)
    ensures Restored(config, Cycled(config, id, channel)) <==>
            (forall p: Path | IsParent(p) :: ObjectOrAbsent(Get(config, p))) && PlainAllow(Get(config, AllowKeys))
  {
    var now := Cycled(config, id, channel);
    CycleCleansUp(config, id, channel);
    AllowRestoredIffPlain(config);
    assert "entries"[0] != "allow"[0] && AllowKeys[1] != ["plugins", "entries"][1];
    forall p: Path | !(AllowKeys <= p)
      ensures SameAt(p, Get(config, p), Get(now, p)) <==> (IsParent(p) ==> ObjectOrAbsent(Get(config, p)))
    {
      if IsParent(p) {
        CycleLeavesParents(config, id, channel, p);
      } else {
        CycleAt(config, id, channel, p);
      }
    }
    forall p: Path | IsParent(p)
      ensures !(AllowKeys <= p)
    {
      assert |p| == 2 ==> p[1] == "entries";
    }
  }
}
