/** `ConfigBatch`: operations regrouped into a replace batch, a set batch and single unsets,
    and run on the machine through commands that may fail. */
module ConfigBatch {
  import opened Common
  import opened JsonTree
  import opened DotPath
  import opened ConfigOps

  datatype Entry = Entry(path: string, value: Json)

  datatype Command =
    | SetBatch(entries: seq<Entry>, replace: bool)
    | UnsetPath(path: string)
    | RepairSymlink

  datatype BatchError = UnknownOp(name: string) | InvalidJson(path: string) | CommandFailed(command: Command)

  /** A command that was sent and whether it succeeded. */
  datatype Sent = Sent(command: Command, ok: bool)

  // ---- Regrouping ----

  function Replaces(ops: seq<ConfigOp>): seq<ConfigOp> {
    if ops == [] then []
    else (if ops[0].SetOp? && ops[0].replace then [ops[0]] else []) + Replaces(ops[1..])
  }

  function Sets(ops: seq<ConfigOp>): seq<ConfigOp> {
    if ops == [] then []
    else (if ops[0].SetOp? && !ops[0].replace then [ops[0]] else []) + Sets(ops[1..])
  }

  function Unsets(ops: seq<ConfigOp>): seq<ConfigOp> {
    if ops == [] then []
    else (if ops[0].UnsetOp? then [ops[0]] else []) + Unsets(ops[1..])
  }

  function Regrouped(ops: seq<ConfigOp>): seq<ConfigOp> {
    Replaces(ops) + Sets(ops) + Unsets(ops)
  }

  predicate AllKnown(ops: seq<ConfigOp>) {
    forall op :: op in ops ==> !op.OtherOp?
  }

  /** One more operation at the head of any of three groups. */
  lemma OneMoreInGroups(a: seq<ConfigOp>, b: seq<ConfigOp>, c: seq<ConfigOp>, op: ConfigOp)
    ensures multiset([op] + a + b + c) == multiset{op} + multiset(a + b + c)
    ensures multiset(a + ([op] + b) + c) == multiset{op} + multiset(a + b + c)
    ensures multiset(a + b + ([op] + c)) == multiset{op} + multiset(a + b + c)
  {
    assert multiset(a + b + c) == multiset(a) + multiset(b) + multiset(c);
  }

  lemma OneMoreAltogether(ops: seq<ConfigOp>, grouped: seq<ConfigOp>)
    requires ops != [] && multiset(grouped) == multiset(ops[1..])
    ensures multiset{ops[0]} + multiset(grouped) == multiset(ops)
  {
    assert ops == [ops[0]] + ops[1..];
  }

  /** Regrouping loses and repeats nothing. */
  lemma {:induction false} RegroupedIsPermutation(ops: seq<ConfigOp>)
    requires AllKnown(ops)
    ensures multiset(Regrouped(ops)) == multiset(ops)
  {
    if ops != [] {
      RegroupedIsPermutation(ops[1..]);
      assert ops[0] in ops;
      var r, s, u := Replaces(ops[1..]), Sets(ops[1..]), Unsets(ops[1..]);
      OneMoreInGroups(r, s, u, ops[0]);
      GroupsOfHead(ops);
      OneMoreAltogether(ops, r + s + u);
    }
  }

  lemma GroupsOfHead(ops: seq<ConfigOp>)
    requires ops != [] && !ops[0].OtherOp?
    ensures var (r, s, u) := (Replaces(ops[1..]), Sets(ops[1..]), Unsets(ops[1..]));
            Regrouped(ops) == if ops[0].UnsetOp? then r + s + ([ops[0]] + u)
                              else if ops[0].replace then [ops[0]] + r + s + u
                              else r + ([ops[0]] + s) + u
  {
    var r, s, u := Replaces(ops[1..]), Sets(ops[1..]), Unsets(ops[1..]);
    assert [] + r == r && [] + s == s && [] + u == u;
    assert Replaces(ops) == if ops[0].SetOp? && ops[0].replace then [ops[0]] + r else r;
    assert Sets(ops) == if ops[0].SetOp? && !ops[0].replace then [ops[0]] + s else s;
    assert Unsets(ops) == if ops[0].UnsetOp? then [ops[0]] + u else u;
  }

  lemma {:induction false} ReplacesSnoc(ops: seq<ConfigOp>, op: ConfigOp)
    ensures Replaces(ops + [op]) == Replaces(ops) + if op.SetOp? && op.replace then [op] else []
  {
    if ops == [] {
      assert ops + [op] == [op] && [op][1..] == [];
    } else {
      assert (ops + [op])[0] == ops[0] && (ops + [op])[1..] == ops[1..] + [op];
      ReplacesSnoc(ops[1..], op);
      Assoc(if ops[0].SetOp? && ops[0].replace then [ops[0]] else [], Replaces(ops[1..]), if op.SetOp? && op.replace then [op] else []);
    }
  }

  lemma {:induction false} SetsSnoc(ops: seq<ConfigOp>, op: ConfigOp)
    ensures Sets(ops + [op]) == Sets(ops) + if op.SetOp? && !op.replace then [op] else []
  {
    if ops == [] {
      assert ops + [op] == [op] && [op][1..] == [];
    } else {
      assert (ops + [op])[0] == ops[0] && (ops + [op])[1..] == ops[1..] + [op];
      SetsSnoc(ops[1..], op);
      Assoc(if ops[0].SetOp? && !ops[0].replace then [ops[0]] else [], Sets(ops[1..]), if op.SetOp? && !op.replace then [op] else []);
    }
  }

  lemma {:induction false} UnsetsSnoc(ops: seq<ConfigOp>, op: ConfigOp)
    ensures Unsets(ops + [op]) == Unsets(ops) + if op.UnsetOp? then [op] else []
  {
    if ops == [] {
      assert ops + [op] == [op] && [op][1..] == [];
    } else {
      assert (ops + [op])[0] == ops[0] && (ops + [op])[1..] == ops[1..] + [op];
      UnsetsSnoc(ops[1..], op);
      Assoc(if ops[0].UnsetOp? then [ops[0]] else [], Unsets(ops[1..]), if op.UnsetOp? then [op] else []);
    }
  }

  // ---- Meaning of commands ----

  function ValueOf(v: Value): Option<Json> {
    match v
    case Strict(decoded) => decoded
    case Plain(text) => Some(Str(text))
  }

  /** The entries of a batch; a value that is not valid JSON is left out. */
  function Entries(ops: seq<ConfigOp>): seq<Entry> {
    if ops == [] then []
    else
      (if ops[0].SetOp? && ValueOf(ops[0].value).Some? then [Entry(ops[0].path, ValueOf(ops[0].value).value)] else [])
      + Entries(ops[1..])
  }

  predicate Decodes(op: ConfigOp) {
    op.SetOp? ==> ValueOf(op.value).Some?
  }

  function EntriesAsOps(entries: seq<Entry>): seq<ConfigOp> {
    if entries == [] then [] else [SetOp(entries[0].path, Strict(Some(entries[0].value)), false)] + EntriesAsOps(entries[1..])
  }

  /** What a successful command does to the machine's document. */
  function Effect(doc: Json, c: Command): Json {
    match c
    case SetBatch(entries, _) => AppliedAll(doc, EntriesAsOps(entries))
    case UnsetPath(path) => Applied(doc, UnsetOp(path))
    case RepairSymlink => doc
  }

  function Replay(doc: Json, log: seq<Sent>): Json
    decreases |log|
  {
    if log == [] then doc
    else Replay(if log[0].ok then Effect(doc, log[0].command) else doc, log[1..])
  }

  function BatchOf(ops: seq<ConfigOp>, replace: bool): seq<Command> {
    if Entries(ops) == [] then [] else [SetBatch(Entries(ops), replace)]
  }

  function UnsetCommands(ops: seq<ConfigOp>): seq<Command> {
    if ops == [] then []
    else (if ops[0].UnsetOp? then [UnsetPath(ops[0].path)] else []) + UnsetCommands(ops[1..])
  }

  /** The commands a batch sends before any repair. */
  function Plan(ops: seq<ConfigOp>): seq<Command> {
    BatchOf(Replaces(ops), true) + BatchOf(Sets(ops), false) + UnsetCommands(Unsets(ops))
  }

  function CommandsOf(log: seq<Sent>): seq<Command> {
    seq(|log|, i requires 0 <= i < |log| => log[i].command)
  }

  predicate SomeOk(log: seq<Sent>) {
    exists i :: 0 <= i < |log| && log[i].ok
  }

  predicate AllOk(log: seq<Sent>) {
    forall i :: 0 <= i < |log| ==> log[i].ok
  }

  lemma {:induction false} ReplaySnoc(doc: Json, log: seq<Sent>, s: Sent)
    ensures Replay(doc, log + [s]) == if s.ok then Effect(Replay(doc, log), s.command) else Replay(doc, log)
    decreases |log|
  {
    if log == [] {
      assert log + [s] == [s];
    } else {
      assert (log + [s])[1..] == log[1..] + [s];
      ReplaySnoc(if log[0].ok then Effect(doc, log[0].command) else doc, log[1..], s);
    }
  }

  lemma CommandsSnoc(log: seq<Sent>, s: Sent)
    ensures CommandsOf(log + [s]) == CommandsOf(log) + [s.command]
    ensures SomeOk(log + [s]) == (SomeOk(log) || s.ok)
    ensures AllOk(log + [s]) == (AllOk(log) && s.ok)
  {
    assert (log + [s])[|log|] == s;
    assert forall i :: 0 <= i < |log| ==> (log + [s])[i] == log[i];
  }

  predicate AllDecode(ops: seq<ConfigOp>) {
    forall i :: 0 <= i < |ops| ==> Decodes(ops[i])
  }

  lemma {:induction false} EntriesSnoc(ops: seq<ConfigOp>, op: ConfigOp)
    ensures Entries(ops + [op]) == Entries(ops) + Entries([op])
  {
    if ops == [] {
      assert ops + [op] == [op];
    } else {
      assert (ops + [op])[1..] == ops[1..] + [op];
      EntriesSnoc(ops[1..], op);
    }
  }

  /** The errors of a batch: one for each value that is not valid JSON, in order. */
  function BadValues(ops: seq<ConfigOp>): seq<BatchError> {
    if ops == [] then []
    else (if ops[0].SetOp? && ValueOf(ops[0].value).None? then [InvalidJson(ops[0].path)] else []) + BadValues(ops[1..])
  }

  lemma {:induction false} BadValuesSnoc(ops: seq<ConfigOp>, op: ConfigOp)
    ensures BadValues(ops + [op]) == BadValues(ops) + BadValues([op])
  {
    if ops == [] {
      assert ops + [op] == [op];
    } else {
      assert (ops + [op])[1..] == ops[1..] + [op];
      BadValuesSnoc(ops[1..], op);
    }
  }

  /** Every value of a batch is an entry or an error, never both. */
  lemma {:induction false} EntryOrError(ops: seq<ConfigOp>)
    requires forall op :: op in ops ==> op.SetOp?
    ensures |Entries(ops)| + |BadValues(ops)| == |ops|
    ensures BadValues(ops) == [] <==> AllDecode(ops)
  {
    if ops != [] {
      assert ops[0] in ops;
      EntryOrError(ops[1..]);
      assert ops == [ops[0]] + ops[1..];
      AllDecodeConcat([ops[0]], ops[1..]);
    }
  }

  /** Decodes a batch; every value that is not valid JSON is an error of its own. */
  method Decode(batchOps: seq<ConfigOp>) returns (entries: seq<Entry>, bad: seq<BatchError>)
    requires forall op :: op in batchOps ==> op.SetOp?
    ensures entries == Entries(batchOps) && bad == BadValues(batchOps)
    ensures |entries| + |bad| == |batchOps| && (bad == [] <==> AllDecode(batchOps))
  {
    entries, bad := [], [];
    for i := 0 to |batchOps|
      invariant entries == Entries(batchOps[..i]) && bad == BadValues(batchOps[..i])
    {
      var op := batchOps[i];
      assert batchOps[..i + 1] == batchOps[..i] + [op];
      EntriesSnoc(batchOps[..i], op);
      BadValuesSnoc(batchOps[..i], op);
      match ValueOf(op.value)
      case None => bad := bad + [InvalidJson(op.path)];
      case Some(v) => entries := entries + [Entry(op.path, v)];
    }
    assert batchOps[..|batchOps|] == batchOps;
    EntryOrError(batchOps);
  }

  // ---- The running batch ----

  class Batch {
    var doc: Json               // the machine's document
    var log: seq<Sent>          // the commands sent so far
    var errs: seq<BatchError>
    var modified: bool
    ghost var invalid: bool     // some value was not valid JSON
    ghost const start: Json

    ghost predicate Valid()
      reads this
    {
      && doc == Replay(start, log)
      && modified == SomeOk(log)
      && (errs == [] <==> !invalid && AllOk(log))
    }

    constructor (doc: Json)
      ensures Valid() && log == [] && !invalid && start == doc
    {
      this.doc, this.start, log, errs, modified, invalid := doc, doc, [], [], false, false;
    }

    /** Sends one command; it may fail, and then it changes nothing on the machine. */
    method Exec(c: Command) returns (ok: bool)
      requires Valid()
      modifies this
      ensures Valid() && invalid == old(invalid)
      ensures log == old(log) + [Sent(c, ok)]
      ensures errs == old(errs) + if ok then [] else [CommandFailed(c)]
    {
      ok := *;
      ReplaySnoc(start, log, Sent(c, ok));
      CommandsSnoc(log, Sent(c, ok));
      log := log + [Sent(c, ok)];
      if ok {
        doc := Effect(doc, c);
        modified := true;
      } else {
        errs := errs + [CommandFailed(c)];
      }
    }

    method RunSetBatch(batchOps: seq<ConfigOp>, replace: bool)
      requires Valid() && forall op :: op in batchOps ==> op.SetOp?
      modifies this
      ensures Valid() && invalid == (old(invalid) || !AllDecode(batchOps))
      ensures CommandsOf(log) == old(CommandsOf(log)) + BatchOf(batchOps, replace)
      ensures Entries(batchOps) == [] ==> log == old(log) && errs == old(errs) + BadValues(batchOps)
      ensures Entries(batchOps) != [] ==>
                && log != [] && log == old(log) + [Last(log)] && Last(log).command == SetBatch(Entries(batchOps), replace)
                && errs == old(errs) + BadValues(batchOps) + (if Last(log).ok then [] else [CommandFailed(Last(log).command)])
    {
      if |batchOps| == 0 {
        return;
      }
      var entries, bad := Decode(batchOps);
      errs := errs + bad;
      invalid := invalid || bad != [];
      if |entries| > 0 {
        ghost var before := log;
        var ok := Exec(SetBatch(entries, replace));
        CommandsSnoc(before, Sent(SetBatch(entries, replace), ok));
      }
    }

    method RunUnsets(unsetOps: seq<ConfigOp>)
      requires Valid() && forall op :: op in unsetOps ==> op.UnsetOp?
      modifies this
      ensures Valid() && invalid == old(invalid)
      ensures CommandsOf(log) == old(CommandsOf(log)) + UnsetCommands(unsetOps)
    {
      for i := 0 to |unsetOps|
        invariant Valid() && invalid == old(invalid)
        invariant CommandsOf(log) + UnsetCommands(unsetOps[i..]) == old(CommandsOf(log)) + UnsetCommands(unsetOps)
      {
        assert unsetOps[i..][1..] == unsetOps[i + 1..];
        ghost var before := log;
        var ok := Exec(UnsetPath(unsetOps[i].path));
        CommandsSnoc(before, Sent(UnsetPath(unsetOps[i].path), ok));
      }
    }

    /** Replacements go first, so that values depending on an owned catalog are set against the new one. */
    method RunGroups(replaceSetOps: seq<ConfigOp>, setOps: seq<ConfigOp>, unsetOps: seq<ConfigOp>)
      requires Valid() && log == []
      requires forall op :: op in replaceSetOps ==> op.SetOp?
      requires forall op :: op in setOps ==> op.SetOp?
      requires forall op :: op in unsetOps ==> op.UnsetOp?
      modifies this
      ensures Valid() && invalid == (old(invalid) || !AllDecode(replaceSetOps) || !AllDecode(setOps))
      ensures CommandsOf(log) == BatchOf(replaceSetOps, true) + BatchOf(setOps, false) + UnsetCommands(unsetOps)
    {
      RunSetBatch(replaceSetOps, true);
      RunSetBatch(setOps, false);
      RunUnsets(unsetOps);
    }
  }

  lemma GroupsSnoc(ops: seq<ConfigOp>, i: nat)
    requires i < |ops|
    ensures var op := ops[i];
            && Replaces(ops[..i + 1]) == Replaces(ops[..i]) + (if op.SetOp? && op.replace then [op] else [])
            && Sets(ops[..i + 1]) == Sets(ops[..i]) + (if op.SetOp? && !op.replace then [op] else [])
            && Unsets(ops[..i + 1]) == Unsets(ops[..i]) + (if op.UnsetOp? then [op] else [])
  {
    assert ops[..i + 1] == ops[..i] + [ops[i]];
    ReplacesSnoc(ops[..i], ops[i]);
    SetsSnoc(ops[..i], ops[i]);
    UnsetsSnoc(ops[..i], ops[i]);
  }

  method Partition(ops: seq<ConfigOp>)
    returns (unknown: Option<string>, replaceSetOps: seq<ConfigOp>, setOps: seq<ConfigOp>, unsetOps: seq<ConfigOp>)
    ensures unknown.None? <==> AllKnown(ops)
    ensures unknown.None? ==> replaceSetOps == Replaces(ops) && setOps == Sets(ops) && unsetOps == Unsets(ops)
  {
    setOps, replaceSetOps, unsetOps := [], [], [];
    for i := 0 to |ops|
      invariant replaceSetOps == Replaces(ops[..i]) && setOps == Sets(ops[..i]) && unsetOps == Unsets(ops[..i])
      invariant forall k :: 0 <= k < i ==> !ops[k].OtherOp?
    {
      GroupsSnoc(ops, i);
      match ops[i]
      case SetOp(_, _, replace) =>
        if replace {
          replaceSetOps := replaceSetOps + [ops[i]];
        } else {
          setOps := setOps + [ops[i]];
        }
      case UnsetOp(_) =>
        unsetOps := unsetOps + [ops[i]];
      case OtherOp(name) =>
        assert ops[i] in ops;
        return Some(name), [], [], [];
    }
    assert ops[..|ops|] == ops;
    unknown := None;
  }

  // ---- Which command carries which operation ----

  /** The entry is the value of a set operation with this very flag. */
  ghost predicate Carries(e: Entry, replace: bool, ops: seq<ConfigOp>) {
    exists op :: op in ops && op.SetOp? && op.replace == replace && op.path == e.path && ValueOf(op.value) == Some(e.value)
  }

  /** Every command does what some operations ask for: a set batch holds values of sets with its own flag only, and an
      unset is one of the unsets. */
  ghost predicate OnlyAsked(commands: seq<Command>, ops: seq<ConfigOp>) {
    && (forall c, e :: c in commands && c.SetBatch? && e in c.entries ==> Carries(e, c.replace, ops))
    && (forall c :: c in commands && c.UnsetPath? ==> UnsetOp(c.path) in ops)
  }

  /** Every operation is in a command: a set whose value decodes in a batch with its own flag. */
  ghost predicate AllAsked(commands: seq<Command>, ops: seq<ConfigOp>) {
    && (forall op :: op in ops && op.SetOp? && Decodes(op) ==>
          exists c :: c in commands && c.SetBatch? && c.replace == op.replace && Entry(op.path, ValueOf(op.value).value) in c.entries)
    && (forall op :: op in ops && op.UnsetOp? ==> UnsetPath(op.path) in commands)
  }

  /** Replacements go first, at most one batch of each kind, and unsets last. */
  predicate InGroups(commands: seq<Command>) {
    forall i, k :: 0 <= i < k < |commands| ==>
      && (commands[k].SetBatch? ==> commands[i].SetBatch? && commands[i].replace && !commands[k].replace)
      && (commands[k].UnsetPath? ==> commands[i].SetBatch? || commands[i].UnsetPath?)
  }

  lemma {:induction false} EntryOfOp(ops: seq<ConfigOp>, e: Entry)
    ensures e in Entries(ops) <==>
            exists op :: op in ops && op.SetOp? && op.path == e.path && ValueOf(op.value) == Some(e.value)
  {
    if ops != [] {
      EntryOfOp(ops[1..], e);
      assert ops == [ops[0]] + ops[1..];
      if op :| op in ops && op.SetOp? && op.path == e.path && ValueOf(op.value) == Some(e.value) {
        assert op == ops[0] || op in ops[1..];
      }
    }
  }

  lemma {:induction false} InItsGroup(ops: seq<ConfigOp>, op: ConfigOp)
    ensures op in Replaces(ops) <==> op in ops && op.SetOp? && op.replace
    ensures op in Sets(ops) <==> op in ops && op.SetOp? && !op.replace
    ensures op in Unsets(ops) <==> op in ops && op.UnsetOp?
  {
    if ops != [] {
      InItsGroup(ops[1..], op);
      assert ops == [ops[0]] + ops[1..];
    }
  }

  lemma {:induction false} UnsetOfOp(ops: seq<ConfigOp>, c: Command)
    ensures c in UnsetCommands(ops) <==> c.UnsetPath? && UnsetOp(c.path) in ops
  {
    if ops != [] {
      UnsetOfOp(ops[1..], c);
      assert ops == [ops[0]] + ops[1..];
    }
  }

  lemma BatchCarries(ops: seq<ConfigOp>, group: seq<ConfigOp>, replace: bool, c: Command, e: Entry)
    requires c in BatchOf(group, replace) && e in c.entries
    requires forall op :: op in group ==> op in ops && op.SetOp? && op.replace == replace
    ensures c.replace == replace && Carries(e, replace, ops)
  {
    EntryOfOp(group, e);
    var op :| op in group && op.SetOp? && op.path == e.path && ValueOf(op.value) == Some(e.value);
  }

  lemma PlanOnlyAsked(ops: seq<ConfigOp>)
    ensures OnlyAsked(Plan(ops), ops)
  {
    forall op
      ensures op in Replaces(ops) ==> op in ops && op.SetOp? && op.replace
      ensures op in Sets(ops) ==> op in ops && op.SetOp? && !op.replace
      ensures op in Unsets(ops) ==> op in ops
    {
      InItsGroup(ops, op);
    }
    forall c, e | c in Plan(ops) && c.SetBatch? && e in c.entries
      ensures Carries(e, c.replace, ops)
    {
      UnsetOfOp(Unsets(ops), c);
      if c in BatchOf(Replaces(ops), true) {
        BatchCarries(ops, Replaces(ops), true, c, e);
      } else {
        BatchCarries(ops, Sets(ops), false, c, e);
      }
    }
    forall c | c in Plan(ops) && c.UnsetPath?
      ensures UnsetOp(c.path) in ops
    {
      UnsetOfOp(Unsets(ops), c);
    }
  }

  lemma SetIsPlanned(ops: seq<ConfigOp>, op: ConfigOp)
    requires op in ops && op.SetOp? && Decodes(op)
    ensures exists c :: c in Plan(ops) && c.SetBatch? && c.replace == op.replace && Entry(op.path, ValueOf(op.value).value) in c.entries
  {
    InItsGroup(ops, op);
    var group := if op.replace then Replaces(ops) else Sets(ops);
    EntryOfOp(group, Entry(op.path, ValueOf(op.value).value));
    var c := SetBatch(Entries(group), op.replace);
    assert c in BatchOf(group, op.replace);
    assert c in Plan(ops);
  }

  lemma PlanAllAsked(ops: seq<ConfigOp>)
    ensures AllAsked(Plan(ops), ops)
  {
    forall op | op in ops && op.SetOp? && Decodes(op)
      ensures exists c :: c in Plan(ops) && c.SetBatch? && c.replace == op.replace && Entry(op.path, ValueOf(op.value).value) in c.entries
    {
      SetIsPlanned(ops, op);
    }
    forall op | op in ops && op.UnsetOp?
      ensures UnsetPath(op.path) in Plan(ops)
    {
      InItsGroup(ops, op);
      UnsetOfOp(Unsets(ops), UnsetPath(op.path));
    }
  }

  lemma PlanInGroups(ops: seq<ConfigOp>)
    ensures InGroups(Plan(ops))
  {
    var r, s, u := BatchOf(Replaces(ops), true), BatchOf(Sets(ops), false), UnsetCommands(Unsets(ops));
    forall k | |r + s| <= k < |Plan(ops)|
      ensures Plan(ops)[k].UnsetPath?
    {
      assert u[k - |r + s|] in u;
      UnsetOfOp(Unsets(ops), u[k - |r + s|]);
    }
  }

  /** Exactly what was asked for is sent, in groups. */
  ghost predicate AsAsked(commands: seq<Command>, ops: seq<ConfigOp>) {
    OnlyAsked(commands, ops) && AllAsked(commands, ops) && InGroups(commands)
  }

  /** A repair at the end changes nothing about that. */
  lemma SentAsAsked(commands: seq<Command>, ops: seq<ConfigOp>)
    requires commands == Plan(ops) || commands == Plan(ops) + [RepairSymlink]
    ensures AsAsked(commands, ops)
  {
    PlanOnlyAsked(ops);
    PlanAllAsked(ops);
    PlanInGroups(ops);
    forall c
      ensures c != RepairSymlink ==> (c in commands <==> c in Plan(ops))
      ensures c in Plan(ops) ==> c in commands
    {
    }
  }

  /** Runs a list of operations on a machine whose document is `doc`. The log tells which commands were
      sent and which succeeded; the new document is what the successful ones made of the old one. */
  method RunConfigBatch(doc: Json, ops: seq<ConfigOp>)
    returns (newDoc: Json, log: seq<Sent>, errs: seq<BatchError>)
    ensures newDoc == Replay(doc, log)
    ensures !AllKnown(ops) ==> log == [] && |errs| == 1 && errs[0].UnknownOp?
    ensures AllKnown(ops) ==> (errs == [] <==> AllDecode(ops) && AllOk(log))
    ensures AllKnown(ops) ==> |Plan(ops)| <= |log|
    ensures AllKnown(ops) ==>
              CommandsOf(log) == Plan(ops) + if SomeOk(log[..|Plan(ops)|]) then [RepairSymlink] else []
    ensures AllKnown(ops) ==> AsAsked(CommandsOf(log), ops)
  {
    if |ops| == 0 {
      SentAsAsked([], ops);
      return doc, [], [];
    }
    var unknown, replaceSetOps, setOps, unsetOps := Partition(ops);
    if unknown.Some? {
      return doc, [], [UnknownOp(unknown.value)];
    }
    GroupsAreOfTheirKind(ops);
    var b := new Batch(doc);
    b.RunGroups(replaceSetOps, setOps, unsetOps);
    ghost var planned := b.log;
    if b.modified {
      var ok := b.Exec(RepairSymlink);
      CommandsSnoc(planned, Sent(RepairSymlink, ok));
    }
    assert |planned| == |CommandsOf(planned)| == |Plan(ops)|;
    assert b.log[..|Plan(ops)|] == planned;
    SentAsAsked(CommandsOf(b.log), ops);
    return b.doc, b.log, b.errs;
  }

  lemma {:induction false} GroupsAreOfTheirKind(ops: seq<ConfigOp>)
    ensures forall op :: op in Replaces(ops) ==> op.SetOp? && op in ops
    ensures forall op :: op in Sets(ops) ==> op.SetOp? && op in ops
    ensures forall op :: op in Unsets(ops) ==> op.UnsetOp? && op in ops
    ensures AllDecode(Replaces(ops)) && AllDecode(Sets(ops)) <==> AllDecode(ops)
  {
    if ops != [] {
      GroupsAreOfTheirKind(ops[1..]);
      var first := if ops[0].SetOp? && ops[0].replace then [ops[0]] else [];
      AllDecodeConcat(first, Replaces(ops[1..]));
      var second := if ops[0].SetOp? && !ops[0].replace then [ops[0]] else [];
      AllDecodeConcat(second, Sets(ops[1..]));
      assert ops == [ops[0]] + ops[1..];
      AllDecodeConcat([ops[0]], ops[1..]);
    }
  }

  lemma AllDecodeConcat(a: seq<ConfigOp>, b: seq<ConfigOp>)
    ensures AllDecode(a + b) <==> AllDecode(a) && AllDecode(b)
  {
    assert forall i :: 0 <= i < |a| ==> (a + b)[i] == a[i];
    assert forall i :: 0 <= i < |b| ==> (a + b)[|a| + i] == b[i];
  }

  // ---- A batch that succeeds ----

  lemma {:induction false} EntriesMeanTheirOps(doc: Json, ops: seq<ConfigOp>)
    requires AllDecode(ops) && forall op :: op in ops ==> op.SetOp?
    ensures AppliedAll(doc, EntriesAsOps(Entries(ops))) == AppliedAll(doc, ops)
    ensures Entries(ops) == [] <==> ops == []
    decreases |ops|
  {
    if ops != [] {
      assert ops[0] in ops && Decodes(ops[0]);
      assert forall i :: 0 <= i < |ops[1..]| ==> ops[1..][i] == ops[i + 1];
      var e := Entry(ops[0].path, ValueOf(ops[0].value).value);
      assert Entries(ops) == [e] + Entries(ops[1..]);
      assert Entries(ops)[1..] == Entries(ops[1..]);
      EntriesMeanTheirOps(Applied(doc, ops[0]), ops[1..]);
      var again := EntriesAsOps(Entries(ops));
      assert again[1..] == EntriesAsOps(Entries(ops[1..]));
    }
  }

  function Run(doc: Json, commands: seq<Command>): Json
    decreases |commands|
  {
    if commands == [] then doc else Run(Effect(doc, commands[0]), commands[1..])
  }

  lemma {:induction false} RunInTwo(doc: Json, a: seq<Command>, b: seq<Command>)
    ensures Run(doc, a + b) == Run(Run(doc, a), b)
    decreases |a|
  {
    if a == [] {
      assert a + b == b;
    } else {
      assert (a + b)[1..] == a[1..] + b;
      RunInTwo(Effect(doc, a[0]), a[1..], b);
    }
  }

  lemma {:induction false} ReplayOfSuccess(doc: Json, log: seq<Sent>)
    requires AllOk(log)
    ensures Replay(doc, log) == Run(doc, CommandsOf(log))
    decreases |log|
  {
    if log != [] {
      assert CommandsOf(log)[1..] == CommandsOf(log[1..]);
      assert forall i :: 0 <= i < |log[1..]| ==> log[1..][i] == log[i + 1];
      ReplayOfSuccess(Effect(doc, log[0].command), log[1..]);
    }
  }

  lemma {:induction false} UnsetCommandsMeanTheirOps(doc: Json, ops: seq<ConfigOp>)
    requires forall op :: op in ops ==> op.UnsetOp?
    ensures Run(doc, UnsetCommands(ops)) == AppliedAll(doc, ops)
    decreases |ops|
  {
    if ops != [] {
      assert ops[0] in ops;
      var rest := UnsetCommands(ops[1..]);
      assert UnsetCommands(ops) == [UnsetPath(ops[0].path)] + rest;
      assert UnsetCommands(ops)[1..] == rest;
      UnsetCommandsMeanTheirOps(Applied(doc, ops[0]), ops[1..]);
    }
  }

  lemma BatchMeansItsOps(doc: Json, ops: seq<ConfigOp>, replace: bool)
    requires AllDecode(ops) && forall op :: op in ops ==> op.SetOp?
    ensures Run(doc, BatchOf(ops, replace)) == AppliedAll(doc, ops)
  {
    EntriesMeanTheirOps(doc, ops);
    if ops != [] {
      var c := SetBatch(Entries(ops), replace);
      assert [c][1..] == [];
      assert Run(doc, [c]) == Effect(doc, c);
    }
  }

  lemma PlanMeansRegrouped(doc: Json, ops: seq<ConfigOp>)
    requires AllKnown(ops) && AllDecode(ops)
    ensures Run(doc, Plan(ops)) == AppliedAll(doc, Regrouped(ops))
  {
    GroupsAreOfTheirKind(ops);
    var r, s, u := BatchOf(Replaces(ops), true), BatchOf(Sets(ops), false), UnsetCommands(Unsets(ops));
    RunInTwo(doc, r + s, u);
    RunInTwo(doc, r, s);
    BatchMeansItsOps(doc, Replaces(ops), true);
    BatchMeansItsOps(AppliedAll(doc, Replaces(ops)), Sets(ops), false);
    AppliedConcat(doc, Replaces(ops) + Sets(ops), Unsets(ops));
    AppliedConcat(doc, Replaces(ops), Sets(ops));
    UnsetCommandsMeanTheirOps(AppliedAll(doc, Replaces(ops) + Sets(ops)), Unsets(ops));
  }

  /** A batch without errors does what the regrouped operations do one by one. */
  lemma SuccessfulBatchIsRegrouped(doc: Json, ops: seq<ConfigOp>, log: seq<Sent>)
    requires AllKnown(ops) && AllDecode(ops) && AllOk(log)
    requires CommandsOf(log) == Plan(ops) || CommandsOf(log) == Plan(ops) + [RepairSymlink]
    ensures Replay(doc, log) == AppliedAll(doc, Regrouped(ops))
  {
    ReplayOfSuccess(doc, log);
    RunInTwo(doc, Plan(ops), [RepairSymlink]);
    var done := Run(doc, Plan(ops));
    assert Run(done, [RepairSymlink]) == Run(done, [RepairSymlink][1..]) == done;
    PlanMeansRegrouped(doc, ops);
  }

  /** Regrouping is invisible: a batch without errors leaves the machine with the document that
      applying the operations one by one, in the order given, produces. */
  lemma SuccessfulBatchEqualsInOrder(doc: Json, ops: seq<ConfigOp>, log: seq<Sent>)
    requires AllKnown(ops) && AllDecode(ops) && PairwiseIncomparable(ops) && AllOk(log)
    requires CommandsOf(log) == Plan(ops) || CommandsOf(log) == Plan(ops) + [RepairSymlink]
    ensures Replay(doc, log) == AppliedAll(doc, ops)
  {
    SuccessfulBatchIsRegrouped(doc, ops, log);
    RegroupedIsPermutation(ops);
    OrderDoesNotMatter(doc, ops, Regrouped(ops));
  }
}
