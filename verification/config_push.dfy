/** A diff pushed to a machine through a batch, and the stored config that is kept in step. */
module ConfigPush {
  import opened Common
  import opened JsonTree
  import opened DotPath
  import opened ConfigOps
  import opened ConfigDiff
  import ConfigBatch

  // ---- The stored config ----

  /** The stored record: the assembled config, `None` inside when it does not parse to an object. */
  datatype Stored = Stored(config: Option<Option<Object>>, version: nat)

  function StoredConfig(record: Stored): Json {
    match record.config
    case Some(Some(fields)) => Obj(fields)
    case _ => Obj(map[])
  }

  /** Applies the operations to the stored config, one by one; a value that is not valid JSON is skipped. */
  method PatchAssembledConfig(record: Option<Stored>, ops: seq<ConfigOp>) returns (r: Option<Stored>)
    ensures r.Some? <==> record.Some?
    ensures r.Some? ==> StoredConfig(r.value) == AppliedAll(StoredConfig(record.value), ops)
    ensures r.Some? ==> r.value.version == record.value.version + 1
  {
    if record.None? {
      return None;
    }
    var config := StoredConfig(record.value);
    assert ops[0..] == ops;
    for i := 0 to |ops|
      invariant config.Obj? && AppliedAll(config, ops[i..]) == AppliedAll(StoredConfig(record.value), ops)
    {
      assert ops[i..][0] == ops[i] && ops[i..][1..] == ops[i + 1..];
      match ops[i] {
        case SetOp(path, _, _) =>
          if Segments(path) != [] {
            EditedObject(config, Segments(path), EditOf(ops[i]));
            config := Edited(config, Segments(path), EditOf(ops[i]));
          }
        case UnsetOp(path) =>
          if Segments(path) != [] {
            EditedObject(config, Segments(path), Drop);
            config := Edited(config, Segments(path), Drop);
          }
        case OtherOp(_) =>
      }
    }
    r := Some(Stored(Some(Some(config.fields)), record.value.version + 1));
  }

  // ---- A diff through a batch ----

  lemma DiffOpsDecode(was: Object, wants: Object, op: ConfigOp)
    requires op in DiffOps(was, wants)
    ensures !op.OtherOp? && ConfigBatch.Decodes(op)
  {
    var s: Section :| op in SectionOps(s, was, wants);
    if Keyed(s) {
      var name := NameOf(s, was, wants, op);
    } else {
      WholeOpDecodes(s, was, wants, op);
    }
  }

  lemma WholeOpDecodes(s: Section, was: Object, wants: Object, op: ConfigOp)
    requires op in WholeSectionOps(s, was, wants)
    ensures !op.OtherOp? && ConfigBatch.Decodes(op)
  {
  }

  lemma DiffIsRunnable(was: Object, wants: Object, ops: seq<ConfigOp>)
    requires Enumerates(ops, DiffOps(was, wants))
    ensures ConfigBatch.AllKnown(ops) && ConfigBatch.AllDecode(ops)
  {
    forall op | op in ops
      ensures !op.OtherOp? && ConfigBatch.Decodes(op)
    {
      DiffOpsDecode(was, wants, op);
    }
  }

  /** The commands a batch sends for these operations, one by one or up to a repair at the end. */
  predicate SentFor(ops: seq<ConfigOp>, log: seq<ConfigBatch.Sent>) {
    || ConfigBatch.CommandsOf(log) == ConfigBatch.Plan(ops)
    || ConfigBatch.CommandsOf(log) == ConfigBatch.Plan(ops) + [ConfigBatch.RepairSymlink]
  }

  /** A diff that a batch pushes without errors leaves the machine agreeing with the new config, although the batch
      regroups the operations. */
  lemma SuccessfulPushAgrees(was: Object, wants: Object, ops: seq<ConfigOp>, log: seq<ConfigBatch.Sent>)
    requires CleanNames(was, wants) && Enumerates(ops, DiffOps(was, wants))
    requires ConfigBatch.AllOk(log) && SentFor(ops, log)
    ensures Agrees(ConfigBatch.Replay(Obj(was), log), wants)
  {
    DiffIsRunnable(was, wants, ops);
    DiffOpsIncomparable(was, wants, ops);
    ConfigBatch.SuccessfulBatchEqualsInOrder(Obj(was), ops, log);
    PushAgrees(was, wants, ops);
  }

  // ---- A push that fails half-way ----

  predicate Away(p: string, q: Path) {
    Segments(p) == [] || Incomparable(Segments(p), q)
  }

  /** A command none of whose paths is comparable to `q`. */
  predicate StaysAway(c: ConfigBatch.Command, q: Path) {
    match c
    case SetBatch(entries, _) => forall e :: e in entries ==> Away(e.path, q)
    case UnsetPath(path) => Away(path, q)
    case RepairSymlink => true
  }

  lemma {:induction false} EntriesStayAway(entries: seq<ConfigBatch.Entry>, q: Path)
    requires forall e :: e in entries ==> Away(e.path, q)
    ensures forall op :: op in ConfigBatch.EntriesAsOps(entries) ==> PathOf(op) == [] || Incomparable(PathOf(op), q)
  {
    if entries != [] {
      assert entries[0] in entries;
      EntriesStayAway(entries[1..], q);
    }
  }

  lemma CommandStaysAway(doc: Json, c: ConfigBatch.Command, q: Path)
    requires StaysAway(c, q)
    ensures Get(ConfigBatch.Effect(doc, c), q) == Get(doc, q)
  {
    match c
    case SetBatch(entries, _) =>
      EntriesStayAway(entries, q);
      ReadElsewhere(doc, ConfigBatch.EntriesAsOps(entries), q);
    case UnsetPath(path) =>
      if Segments(path) != [] {
        GetElsewhere(doc, Segments(path), Drop, q);
      }
    case RepairSymlink =>
  }

  lemma {:induction false} LogStaysAway(doc: Json, log: seq<ConfigBatch.Sent>, q: Path)
    requires forall s :: s in log ==> StaysAway(s.command, q)
    ensures Get(ConfigBatch.Replay(doc, log), q) == Get(doc, q)
    decreases |log|
  {
    if log != [] {
      assert log[0] in log;
      CommandStaysAway(doc, log[0].command, q);
      LogStaysAway(if log[0].ok then ConfigBatch.Effect(doc, log[0].command) else doc, log[1..], q);
    }
  }

  lemma {:induction false} EntriesComeFrom(ops: seq<ConfigOp>, e: ConfigBatch.Entry)
    requires e in ConfigBatch.Entries(ops)
    ensures exists op :: op in ops && op.SetOp? && op.path == e.path
  {
    if e in ConfigBatch.Entries(ops[1..]) {
      EntriesComeFrom(ops[1..], e);
      var op :| op in ops[1..] && op.SetOp? && op.path == e.path;
      assert op in ops;
    } else {
      assert ops[0] in ops;
    }
  }

  lemma {:induction false} UnsetsComeFrom(ops: seq<ConfigOp>, c: ConfigBatch.Command)
    requires c in ConfigBatch.UnsetCommands(ops)
    ensures c.UnsetPath? && exists op :: op in ops && op.UnsetOp? && op.path == c.path
  {
    if c in ConfigBatch.UnsetCommands(ops[1..]) {
      UnsetsComeFrom(ops[1..], c);
      var op :| op in ops[1..] && op.UnsetOp? && op.path == c.path;
      assert op in ops;
    } else {
      assert ops[0] in ops;
    }
  }

  lemma {:induction false} GroupsComeFrom(ops: seq<ConfigOp>, op: ConfigOp)
    ensures op in ConfigBatch.Replaces(ops) || op in ConfigBatch.Sets(ops) || op in ConfigBatch.Unsets(ops) ==> op in ops
  {
    if ops != [] {
      GroupsComeFrom(ops[1..], op);
      assert ops == [ops[0]] + ops[1..];
    }
  }

  /** Every command of a plan works on paths of the operations only. */
  lemma PlanStaysAway(ops: seq<ConfigOp>, c: ConfigBatch.Command, q: Path)
    requires c in ConfigBatch.Plan(ops)
    requires forall op :: op in ops && !op.OtherOp? ==> Away(op.path, q)
    ensures StaysAway(c, q)
  {
    forall op | op in ConfigBatch.Replaces(ops) || op in ConfigBatch.Sets(ops) || op in ConfigBatch.Unsets(ops)
      ensures op in ops
    {
      GroupsComeFrom(ops, op);
    }
    if c.SetBatch? {
      forall e | e in c.entries
        ensures Away(e.path, q)
      {
        if c.entries == ConfigBatch.Entries(ConfigBatch.Replaces(ops)) {
          EntriesComeFrom(ConfigBatch.Replaces(ops), e);
        } else {
          NoSetsAmongUnsets(ConfigBatch.Unsets(ops), c);
          EntriesComeFrom(ConfigBatch.Sets(ops), e);
        }
      }
    } else if c.UnsetPath? {
      UnsetsComeFrom(ConfigBatch.Unsets(ops), c);
    }
  }

  lemma {:induction false} NoSetsAmongUnsets(ops: seq<ConfigOp>, c: ConfigBatch.Command)
    ensures c in ConfigBatch.UnsetCommands(ops) ==> c.UnsetPath?
  {
    if ops != [] {
      NoSetsAmongUnsets(ops[1..], c);
    }
  }

  lemma DiffOpStaysAway(was: Object, wants: Object, op: ConfigOp, q: Path)
    requires op in DiffOps(was, wants) && forall s: Section :: Incomparable(Keys(s), q)
    ensures Incomparable(PathOf(op), q)
  {
    var s: Section :| op in SectionOps(s, was, wants);
    OpInItsSection(s, was, wants, op);
    IncomparableExtend(Keys(s), q, PathOf(op)[|Keys(s)|..], []);
    assert q + [] == q && PathOf(op) == Keys(s) + PathOf(op)[|Keys(s)|..];
  }

  lemma PlannedOrRepair(ops: seq<ConfigOp>, log: seq<ConfigBatch.Sent>, s: ConfigBatch.Sent) returns (c: ConfigBatch.Command)
    requires SentFor(ops, log) && s in log
    ensures c == s.command && (c == ConfigBatch.RepairSymlink || c in ConfigBatch.Plan(ops))
  {
    var i :| 0 <= i < |log| && log[i] == s;
    c := ConfigBatch.CommandsOf(log)[i];
  }

  /** However many of its commands fail, a push never touches a path away from the managed sections. */
  lemma FailingPushKeepsTheRest(doc: Json, was: Object, wants: Object, ops: seq<ConfigOp>, log: seq<ConfigBatch.Sent>, q: Path)
    requires Enumerates(ops, DiffOps(was, wants)) && SentFor(ops, log)
    requires forall s: Section :: Incomparable(Keys(s), q)
    ensures Get(ConfigBatch.Replay(doc, log), q) == Get(doc, q)
  {
    forall op | op in ops && !op.OtherOp?
      ensures Away(op.path, q)
    {
      DiffOpStaysAway(was, wants, op, q);
    }
    forall s | s in log
      ensures StaysAway(s.command, q)
    {
      var c := PlannedOrRepair(ops, log, s);
      if c != ConfigBatch.RepairSymlink {
        PlanStaysAway(ops, c, q);
      }
    }
    LogStaysAway(doc, log, q);
  }
}
