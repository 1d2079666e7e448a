/** The two owned model objects are right after a push whatever a set without `--replace` makes of what is there. */
module ConfigReplace {
  import opened Common
  import opened JsonTree
  import opened DotPath
  import opened ConfigOps
  import opened ConfigDiff
  import opened ConfigBatch
  import ConfigPush

  /** What a set without the flag leaves at its path, from what is there and the new value. */
  type Mixing = (Option<Json>, Json) -> Json

  /** The operation that one entry of a batch comes to: with the flag the value itself, otherwise whatever it is mixed
      to with what is there. */
  function EntryOp(mix: Mixing, doc: Json, e: Entry, replace: bool): ConfigOp {
    SetOp(e.path, Strict(Some(if replace then e.value else mix(Get(doc, Segments(e.path)), e.value))), replace)
  }

  function EntriesSet(mix: Mixing, doc: Json, entries: seq<Entry>, replace: bool): Json
    decreases |entries|
  {
    if entries == [] then doc
    else EntriesSet(mix, Applied(doc, EntryOp(mix, doc, entries[0], replace)), entries[1..], replace)
  }

  function MixedEffect(mix: Mixing, doc: Json, c: Command): Json {
    match c
    case SetBatch(entries, replace) => EntriesSet(mix, doc, entries, replace)
    case UnsetPath(path) => Applied(doc, UnsetOp(path))
    case RepairSymlink => doc
  }

  function MixedReplay(mix: Mixing, doc: Json, log: seq<Sent>): Json
    decreases |log|
  {
    if log == [] then doc
    else MixedReplay(mix, if log[0].ok then MixedEffect(mix, doc, log[0].command) else doc, log[1..])
  }

  // ---- Away from the owned object ----

  lemma {:induction false} EntriesElsewhere(mix: Mixing, doc: Json, entries: seq<Entry>, replace: bool, q: Path)
    requires forall e :: e in entries ==> ConfigPush.Away(e.path, q)
    ensures Get(EntriesSet(mix, doc, entries, replace), q) == Get(doc, q)
    decreases |entries|
  {
    if entries != [] {
      assert entries[0] in entries;
      var op := EntryOp(mix, doc, entries[0], replace);
      if PathOf(op) != [] {
        GetElsewhere(doc, PathOf(op), EditOf(op), q);
      }
      EntriesElsewhere(mix, Applied(doc, op), entries[1..], replace, q);
    }
  }

  lemma CommandElsewhere(mix: Mixing, doc: Json, c: Command, q: Path)
    requires ConfigPush.StaysAway(c, q)
    ensures Get(MixedEffect(mix, doc, c), q) == Get(doc, q)
  {
    match c
    case SetBatch(entries, replace) => EntriesElsewhere(mix, doc, entries, replace, q);
    case UnsetPath(path) =>
      if Segments(path) != [] {
        GetElsewhere(doc, Segments(path), Drop, q);
      }
    case RepairSymlink =>
  }

  lemma {:induction false} LogElsewhere(mix: Mixing, doc: Json, log: seq<Sent>, q: Path)
    requires forall s :: s in log ==> ConfigPush.StaysAway(s.command, q)
    ensures Get(MixedReplay(mix, doc, log), q) == Get(doc, q)
    decreases |log|
  {
    if log != [] {
      assert log[0] in log;
      CommandElsewhere(mix, doc, log[0].command, q);
      LogElsewhere(mix, if log[0].ok then MixedEffect(mix, doc, log[0].command) else doc, log[1..], q);
    }
  }

  // ---- The batch with the flag ----

  /** With the flag, an entry is what is read at its path, when the entries after it lie elsewhere. */
  lemma {:induction false} EntryIsRead(mix: Mixing, doc: Json, entries: seq<Entry>, i: nat)
    requires i < |entries| && Segments(entries[i].path) != []
    requires forall k :: i < k < |entries| ==> ConfigPush.Away(entries[k].path, Segments(entries[i].path))
    ensures Get(EntriesSet(mix, doc, entries, true), Segments(entries[i].path)) == Some(entries[i].value)
    decreases i
  {
    var op := EntryOp(mix, doc, entries[0], true);
    var rest := entries[1..];
    if i == 0 {
      GetEdited(doc, PathOf(op), EditOf(op));
      forall e | e in rest
        ensures ConfigPush.Away(e.path, Segments(entries[0].path))
      {
        var k :| 0 <= k < |rest| && rest[k] == e;
        assert e == entries[k + 1];
      }
      EntriesElsewhere(mix, Applied(doc, op), rest, true, Segments(entries[0].path));
    } else {
      assert rest[i - 1] == entries[i] && forall k :: i - 1 < k < |rest| ==> rest[k] == entries[k + 1];
      EntryIsRead(mix, Applied(doc, op), rest, i - 1);
    }
  }

  /** The operation for an owned object that the new config holds. */
  function OwnedOp(s: Section, wants: Object): ConfigOp
    requires NestedMap(Obj(wants), Keys(s)).Some?
  {
    SetOp(Text(s), Strict(Some(Obj(NestedMap(Obj(wants), Keys(s)).value))), true)
  }

  /** All other operations of the diff lie elsewhere. */
  lemma OthersElsewhere(was: Object, wants: Object, s: Section, op: ConfigOp)
    requires Replaced(s) && NestedMap(Obj(wants), Keys(s)).Some?
    requires op in DiffOps(was, wants) && op != OwnedOp(s, wants)
    ensures !op.OtherOp? ==> ConfigPush.Away(op.path, Keys(s))
  {
    var t: Section :| op in SectionOps(t, was, wants);
    OpInItsSection(t, was, wants, op);
    if t != s {
      PathsOfTwoSections(t, PathOf(op), s, Keys(s));
    }
  }

  lemma {:induction false} LastOf<T>(s: seq<T>, x: T) returns (i: nat)
    requires x in s
    ensures i < |s| && s[i] == x && forall k :: i < k < |s| ==> s[k] != x
  {
    if s[|s| - 1] == x {
      i := |s| - 1;
    } else {
      i := LastOf(s[..|s| - 1], x);
    }
  }

  /** Where the owned object is in the batch of replacements. */
  lemma OwnedEntry(was: Object, wants: Object, ops: seq<ConfigOp>, s: Section) returns (i: nat)
    requires Enumerates(ops, DiffOps(was, wants)) && Replaced(s) && NestedMap(Obj(wants), Keys(s)).Some?
    ensures var entries := ConfigBatch.Entries(Replaces(ops));
            && i < |entries| && entries[i] == Entry(Text(s), Obj(NestedMap(Obj(wants), Keys(s)).value))
            && forall k :: i < k < |entries| ==> ConfigPush.Away(entries[k].path, Keys(s))
  {
    var op, entries := OwnedOp(s, wants), ConfigBatch.Entries(Replaces(ops));
    assert op in SectionOps(s, was, wants) && op in DiffOps(was, wants);
    InItsGroup(ops, op);
    var e := Entry(Text(s), Obj(NestedMap(Obj(wants), Keys(s)).value));
    EntryOfOp(Replaces(ops), e);
    i := LastOf(entries, e);
    forall k | i < k < |entries|
      ensures ConfigPush.Away(entries[k].path, Keys(s))
    {
      assert entries[k] in entries;
      EntryOfOp(Replaces(ops), entries[k]);
      var other :| other in Replaces(ops) && other.SetOp? && other.path == entries[k].path && ValueOf(other.value) == Some(entries[k].value);
      InItsGroup(ops, other);
      OthersElsewhere(was, wants, s, other);
    }
  }

  /** All commands but the batch of replacements stay away from the owned object. */
  lemma RestStaysAway(was: Object, wants: Object, ops: seq<ConfigOp>, c: Command, s: Section)
    requires Enumerates(ops, DiffOps(was, wants)) && Replaced(s) && NestedMap(Obj(wants), Keys(s)).Some?
    requires OnlyAsked([c], ops) && (c.SetBatch? ==> !c.replace)
    ensures ConfigPush.StaysAway(c, Keys(s))
  {
    match c
    case SetBatch(entries, replace) =>
      forall e | e in entries
        ensures ConfigPush.Away(e.path, Keys(s))
      {
        assert c in [c];
        var op :| op in ops && op.SetOp? && !op.replace && op.path == e.path && ValueOf(op.value) == Some(e.value);
        OthersElsewhere(was, wants, s, op);
      }
    case UnsetPath(path) =>
      assert c in [c];
      OthersElsewhere(was, wants, s, UnsetOp(path));
    case RepairSymlink =>
  }

  lemma SentCommands(ops: seq<ConfigOp>, log: seq<Sent>)
    requires ConfigPush.SentFor(ops, log)
    ensures OnlyAsked(CommandsOf(log), ops) && InGroups(CommandsOf(log))
  {
    SentAsAsked(CommandsOf(log), ops);
  }

  lemma FirstCommand(ops: seq<ConfigOp>, log: seq<Sent>)
    requires ConfigPush.SentFor(ops, log) && ConfigBatch.Entries(Replaces(ops)) != []
    ensures log != [] && log[0].command == SetBatch(ConfigBatch.Entries(Replaces(ops)), true)
  {
    assert CommandsOf(log)[0] == Plan(ops)[0];
  }

  lemma LaterCommandStaysAway(was: Object, wants: Object, ops: seq<ConfigOp>, log: seq<Sent>, k: nat, s: Section)
    requires Enumerates(ops, DiffOps(was, wants)) && Replaced(s) && NestedMap(Obj(wants), Keys(s)).Some?
    requires ConfigPush.SentFor(ops, log) && 0 < k < |log|
    ensures ConfigPush.StaysAway(log[k].command, Keys(s))
  {
    SentCommands(ops, log);
    var first, c := CommandsOf(log)[0], CommandsOf(log)[k];
    assert c in CommandsOf(log);
    RestStaysAway(was, wants, ops, c, s);
  }

  lemma OwnedAfterReplacements(mix: Mixing, doc: Json, was: Object, wants: Object, ops: seq<ConfigOp>, s: Section)
    requires Enumerates(ops, DiffOps(was, wants)) && Replaced(s) && NestedMap(Obj(wants), Keys(s)).Some?
    ensures ConfigBatch.Entries(Replaces(ops)) != []
    ensures NestedMap(EntriesSet(mix, doc, ConfigBatch.Entries(Replaces(ops)), true), Keys(s)) == NestedMap(Obj(wants), Keys(s))
  {
    var i := OwnedEntry(was, wants, ops, s);
    SectionSegments(s);
    EntryIsRead(mix, doc, ConfigBatch.Entries(Replaces(ops)), i);
  }

  /** On any machine, drifted or not, and whatever sets without the flag do to what is there: once the batch of
      replacements has succeeded, the two owned model objects are those of the new config, however many of the other
      commands fail. */
  lemma OwnedObjectsAreReplaced(mix: Mixing, doc: Json, was: Object, wants: Object, ops: seq<ConfigOp>, log: seq<Sent>, s: Section)
    requires Enumerates(ops, DiffOps(was, wants)) && ConfigPush.SentFor(ops, log) && Replaced(s)
    requires forall i :: 0 <= i < |log| && log[i].command.SetBatch? && log[i].command.replace ==> log[i].ok
    ensures AgreesOn(s, MixedReplay(mix, doc, log), wants)
  {
    if NestedMap(Obj(wants), Keys(s)).Some? {
      var entries := ConfigBatch.Entries(Replaces(ops));
      OwnedAfterReplacements(mix, doc, was, wants, ops, s);
      FirstCommand(ops, log);
      forall c | c in log[1..]
        ensures ConfigPush.StaysAway(c.command, Keys(s))
      {
        var k :| 0 <= k < |log[1..]| && log[1..][k] == c;
        LaterCommandStaysAway(was, wants, ops, log, k + 1, s);
      }
      LogElsewhere(mix, EntriesSet(mix, doc, entries, true), log[1..], Keys(s));
    }
  }
}
