/** `mergeDotEnv`: the user's lines, with the managed keys moved into one block at the end. */
module DotEnvMerge {
  import opened Common
  import opened DotEnv

  const BlockBegin := "# BEGIN OCM MANAGED HERMES ENV"
  const BlockEnd := "# END OCM MANAGED HERMES ENV"

  const DefaultManagedKeys: set<string> := {
    "API_SERVER_ENABLED", "API_SERVER_HOST", "API_SERVER_PORT", "API_SERVER_KEY",
    "HERMES_DASHBOARD", "HERMES_DASHBOARD_HOST", "HERMES_DASHBOARD_PORT", "HERMES_DASHBOARD_TUI",
    "HERMES_INFERENCE_PROVIDER", "TELEGRAM_BOT_TOKEN", "TELEGRAM_ALLOWED_USERS", "DISCORD_BOT_TOKEN",
    "SLACK_BOT_TOKEN", "SLACK_APP_TOKEN", "ANTHROPIC_API_KEY", "OPENAI_API_KEY", "GOOGLE_API_KEY",
    "OPENROUTER_API_KEY", "OLLAMA_API_KEY", "GLM_API_KEY", "KIMI_API_KEY", "MINIMAX_API_KEY",
    "ARCEEAI_API_KEY", "HF_TOKEN", "OPENCODE_ZEN_API_KEY", "OPENCODE_GO_API_KEY", "NOUS_API_KEY", "NEBIUS_API_KEY"}

  // ---- Lines outside managed blocks ----

  /** The lines outside managed blocks, without the markers. A block that is not closed takes all that follows;
      an end marker on its own closes nothing. */
  function Outside(lines: seq<string>, inBlock: bool): seq<string> {
    if lines == [] then []
    else if TrimSpace(lines[0]) == BlockBegin then Outside(lines[1..], true)
    else if TrimSpace(lines[0]) == BlockEnd then Outside(lines[1..], false)
    else if inBlock then Outside(lines[1..], true)
    else [lines[0]] + Outside(lines[1..], false)
  }

  function InBlockAfter(lines: seq<string>, inBlock: bool): bool {
    if lines == [] then inBlock
    else if TrimSpace(lines[0]) == BlockBegin then InBlockAfter(lines[1..], true)
    else if TrimSpace(lines[0]) == BlockEnd then InBlockAfter(lines[1..], false)
    else InBlockAfter(lines[1..], inBlock)
  }

  predicate Managed(line: string, keys: set<string>) {
    KeyOf(line).Some? && KeyOf(line).value in keys
  }

  /** The lines that assign none of the keys. */
  function Unmanaged(lines: seq<string>, keys: set<string>): seq<string> {
    if lines == [] then []
    else (if Managed(lines[0], keys) then [] else [lines[0]]) + Unmanaged(lines[1..], keys)
  }

  function WithoutBlankTail(lines: seq<string>): seq<string> {
    if lines != [] && Blank(Last(lines)) then WithoutBlankTail(lines[..|lines| - 1]) else lines
  }

  function Entries(keys: seq<string>, values: map<string, string>): seq<string>
    requires forall k :: k in keys ==> k in values
  {
    if keys == [] then []
    else [keys[0] + "=" + values[keys[0]]] + Entries(keys[1..], values)
  }

  function Block(keys: seq<string>, values: map<string, string>): seq<string>
    requires forall k :: k in keys ==> k in values
  {
    [BlockBegin] + Entries(keys, values) + [BlockEnd]
  }

  function Kept(lines: seq<string>, managed: set<string>): seq<string> {
    WithoutBlankTail(Unmanaged(Outside(lines, false), managed))
  }

  /** The merged lines: what is kept, a blank line, and the block. `defaults` are keys managed in any case. */
  ghost function MergedLines(lines: seq<string>, defaults: set<string>, values: map<string, string>): seq<string> {
    var kept := Kept(lines, defaults + values.Keys);
    SortedKeysEnumerate(values.Keys);
    if values == map[] then kept
    else kept + (if kept == [] then [] else [""]) + Block(SortedKeys(values.Keys), values)
  }

  ghost function Merged(existing: string, desired: string): string {
    Text(MergedLines(Lines(existing), DefaultManagedKeys, Assignments(Lines(desired))))
  }

  // ---- Sorted keys ----

  predicate Before(a: string, b: string) {
    if b == "" then false
    else if a == "" then true
    else a[0] < b[0] || (a[0] == b[0] && Before(a[1..], b[1..]))
  }

  lemma {:induction false} BeforeIsTotal(a: string, b: string)
    ensures Before(a, b) || a == b || Before(b, a)
    ensures !(Before(a, b) && Before(b, a)) && !Before(a, a)
  {
    if a != "" && b != "" {
      BeforeIsTotal(a[1..], b[1..]);
      BeforeIsTotal(a[1..], a[1..]);
      assert a == [a[0]] + a[1..] && b == [b[0]] + b[1..];
    } else if a != "" {
      BeforeIsTotal(a[1..], a[1..]);
    }
  }

  lemma {:induction false} BeforeIsTransitive(a: string, b: string, c: string)
    requires Before(a, b) && Before(b, c)
    ensures Before(a, c)
  {
    if a != "" && a[0] == b[0] == c[0] {
      BeforeIsTransitive(a[1..], b[1..], c[1..]);
    }
  }

  ghost predicate IsLeast(m: string, keys: set<string>) {
    m in keys && forall k :: k in keys && k != m ==> Before(m, k)
  }

  lemma {:induction false} LeastExists(keys: set<string>)
    requires keys != {}
    ensures exists m :: IsLeast(m, keys)
    decreases |keys|
  {
    var k :| k in keys;
    if keys == {k} {
      assert IsLeast(k, keys);
    } else {
      var rest := keys - {k};
      assert keys == rest + {k};
      LeastExists(rest);
      var m :| IsLeast(m, rest);
      BeforeIsTotal(k, m);
      if Before(k, m) {
        forall other | other in keys && other != k
          ensures Before(k, other)
        {
          if other != m {
            BeforeIsTransitive(k, m, other);
          }
        }
        assert IsLeast(k, keys);
      } else {
        assert IsLeast(m, keys);
      }
    }
  }

  ghost function SortedKeys(keys: set<string>): seq<string>
    decreases |keys|
  {
    if keys == {} then []
    else
      LeastExists(keys);
      var m :| IsLeast(m, keys);
      [m] + SortedKeys(keys - {m})
  }

  lemma {:induction false} SortedKeysEnumerate(keys: set<string>)
    ensures forall k :: k in SortedKeys(keys) <==> k in keys
    decreases |keys|
  {
    if keys != {} {
      LeastExists(keys);
      var m := SortedKeys(keys)[0];
      assert SortedKeys(keys)[1..] == SortedKeys(keys - {m});
      SortedKeysEnumerate(keys - {m});
      forall k
        ensures k in SortedKeys(keys) <==> k in keys
      {
        assert k in SortedKeys(keys) <==> k == m || k in SortedKeys(keys)[1..];
      }
    }
  }

  predicate StrictlySorted(s: seq<string>) {
    forall i, k :: 0 <= i < k < |s| ==> Before(s[i], s[k])
  }

  /** A set has one sorted listing only, whatever order its keys came in. */
  lemma {:induction false} SortedListingIsUnique(s: seq<string>, keys: set<string>)
    requires StrictlySorted(s) && forall k :: k in s <==> k in keys
    ensures s == SortedKeys(keys)
    decreases |s|
  {
    if s == [] {
      assert keys == {};
    } else {
      assert s[0] in keys;
      LeastExists(keys);
      var m := SortedKeys(keys)[0];
      assert IsLeast(m, keys);
      var i :| 0 <= i < |s| && s[i] == m;
      BeforeIsTotal(s[0], m);
      assert s[0] == m;
      forall k
        ensures k in s[1..] <==> k in keys - {m}
      {
        BeforeIsTotal(m, m);
        if k in s[1..] {
          var j :| 0 <= j < |s[1..]| && s[1..][j] == k;
          assert Before(s[0], s[j + 1]);
        }
      }
      SortedListingIsUnique(s[1..], keys - {m});
    }
  }

  // ---- The merge as it is written ----

  /** Stands for the library's sort. */
  method SortStrings(keys: seq<string>) returns (sorted: seq<string>)
    requires forall i, k :: 0 <= i < k < |keys| ==> keys[i] != keys[k]
    ensures StrictlySorted(sorted) && forall k :: k in sorted <==> k in keys
  {
    sorted := [];
    for i := 0 to |keys|
      invariant StrictlySorted(sorted)
      invariant forall k :: k in sorted <==> k in keys[..i]
    {
      assert keys[i] !in sorted;
      sorted := InsertSorted(sorted, keys[i]);
      assert keys[..i + 1] == keys[..i] + [keys[i]];
    }
    assert keys[..|keys|] == keys;
  }

  method InsertSorted(s: seq<string>, key: string) returns (r: seq<string>)
    requires StrictlySorted(s) && key !in s
    ensures StrictlySorted(r) && forall k :: k in r <==> k == key || k in s
  {
    var i := 0;
    while i < |s| && Before(s[i], key)
      invariant i <= |s| && forall k :: 0 <= k < i ==> Before(s[k], key)
    {
      i := i + 1;
    }
    if i < |s| {
      BeforeIsTotal(key, s[i]);
      assert s[i] in s;
    }
    InsertingStaysSorted(s, i, key);
    r := s[..i] + [key] + s[i..];
  }

  lemma InsertingStaysSorted(s: seq<string>, i: nat, key: string)
    requires StrictlySorted(s) && i <= |s|
    requires (forall k :: 0 <= k < i ==> Before(s[k], key)) && (i < |s| ==> Before(key, s[i]))
    ensures var r := s[..i] + [key] + s[i..];
            StrictlySorted(r) && forall k :: k in r <==> k == key || k in s
  {
    var r := s[..i] + [key] + s[i..];
    forall k | i <= k < |s|
      ensures Before(key, s[k])
    {
      if k > i {
        BeforeIsTransitive(key, s[i], s[k]);
      }
    }
    assert s == s[..i] + s[i..];
    forall a, b | 0 <= a < b < |r|
      ensures Before(r[a], r[b])
    {
      assert a < i ==> r[a] == s[a];
      assert a > i ==> r[a] == s[a - 1];
      assert b < i ==> r[b] == s[b];
      assert b > i ==> r[b] == s[b - 1];
    }
  }

  lemma {:induction false} UnmanagedConcat(a: seq<string>, b: seq<string>, keys: set<string>)
    ensures Unmanaged(a + b, keys) == Unmanaged(a, keys) + Unmanaged(b, keys)
  {
    if a == [] {
      assert a + b == b;
    } else {
      assert (a + b)[1..] == a[1..] + b;
      UnmanagedConcat(a[1..], b, keys);
    }
  }

  lemma {:induction false} EntriesSnoc(keys: seq<string>, k: string, values: map<string, string>)
    requires k in values && forall key :: key in keys ==> key in values
    ensures Entries(keys + [k], values) == Entries(keys, values) + [k + "=" + values[k]]
  {
    if keys == [] {
      assert keys + [k] == [k];
    } else {
      assert (keys + [k])[1..] == keys[1..] + [k];
      EntriesSnoc(keys[1..], k, values);
    }
  }

  lemma {:induction false} EntriesAsWritten(keys: seq<string>, values: map<string, string>)
    requires forall k :: k in keys ==> k in values
    ensures |Entries(keys, values)| == |keys|
    ensures forall i :: 0 <= i < |keys| ==> Entries(keys, values)[i] == keys[i] + "=" + values[keys[i]]
  {
    if keys != [] {
      EntriesAsWritten(keys[1..], values);
    }
  }

  lemma {:induction false} SortedKeysAreSorted(keys: set<string>)
    ensures StrictlySorted(SortedKeys(keys))
    decreases |keys|
  {
    if keys != {} {
      LeastExists(keys);
      var m := SortedKeys(keys)[0];
      var rest := SortedKeys(keys - {m});
      assert SortedKeys(keys) == [m] + rest && IsLeast(m, keys);
      SortedKeysAreSorted(keys - {m});
      SortedKeysEnumerate(keys - {m});
      forall k | 0 <= k < |rest|
        ensures Before(m, rest[k])
      {
        assert rest[k] in rest;
      }
    }
  }

  /** Whatever there was before, the merged text ends with the block: its marker, one line for every desired key in
      ascending order, and its end marker. */
  lemma BlockAsWritten(lines: seq<string>, defaults: set<string>, values: map<string, string>)
    returns (before: seq<string>, keys: seq<string>, entries: seq<string>)
    requires values != map[]
    ensures StrictlySorted(keys) && forall k :: k in keys <==> k in values
    ensures |entries| == |keys| && forall i :: 0 <= i < |keys| ==> entries[i] == keys[i] + "=" + values[keys[i]]
    ensures MergedLines(lines, defaults, values)
            == before + (["# BEGIN OCM MANAGED HERMES ENV"] + entries + ["# END OCM MANAGED HERMES ENV"])
  {
    keys := SortedKeys(values.Keys);
    SortedKeysEnumerate(values.Keys);
    SortedKeysAreSorted(values.Keys);
    EntriesAsWritten(keys, values);
    entries := Entries(keys, values);
    var kept := Kept(lines, defaults + values.Keys);
    before := kept + if kept == [] then [] else [""];
  }

  /** What the lines from the i-th on still contribute. */
  function Remaining(lines: seq<string>, i: nat, inBlock: bool, managed: set<string>): seq<string>
    requires i <= |lines|
  {
    Unmanaged(Outside(lines[i..], inBlock), managed)
  }

  function InBlockNext(line: string, inBlock: bool): bool {
    if TrimSpace(line) == BlockBegin then true else if TrimSpace(line) == BlockEnd then false else inBlock
  }

  function Contribution(line: string, inBlock: bool, managed: set<string>): seq<string> {
    if TrimSpace(line) == BlockBegin || TrimSpace(line) == BlockEnd || inBlock || Managed(line, managed) then [] else [line]
  }

  /** What one line contributes, and how the scan goes on. */
  lemma OneLine(lines: seq<string>, i: nat, inBlock: bool, managed: set<string>, kept: seq<string>)
    requires i < |lines|
    ensures kept + Remaining(lines, i, inBlock, managed) ==
            (kept + Contribution(lines[i], inBlock, managed)) + Remaining(lines, i + 1, InBlockNext(lines[i], inBlock), managed)
  {
    assert lines[i..][0] == lines[i] && lines[i..][1..] == lines[i + 1..];
    MarkersDiffer();
  }

  lemma MarkersDiffer()
    ensures BlockBegin != BlockEnd
  {
    assert BlockBegin[2] == 'B' && BlockEnd[2] == 'E';
  }

  /** The body of the scan loop: skips markers, lines in a block and managed assignments. */
  method ScanLine(line: string, inManagedBlock: bool, managed: set<string>, kept: seq<string>)
    returns (inBlock: bool, lines: seq<string>)
    ensures inBlock == InBlockNext(line, inManagedBlock)
    ensures lines == kept + Contribution(line, inManagedBlock, managed)
  {
    inBlock, lines := inManagedBlock, kept;
    var trimmed := TrimSpace(line);
    if trimmed == BlockBegin {
      inBlock := true;
      return;
    }
    if trimmed == BlockEnd {
      MarkersDiffer();
      inBlock := false;
      return;
    }
    if inManagedBlock {
      return;
    }
    var key := KeyOf(line);
    if key.Some? && key.value in managed {
      return;
    }
    lines := kept + [line];
  }

  method UnmanagedLines(lines: seq<string>, managed: set<string>) returns (kept: seq<string>)
    ensures kept == Unmanaged(Outside(lines, false), managed)
  {
    kept := [];
    var inManagedBlock := false;
    ghost var all := Remaining(lines, 0, false, managed);
    assert lines[0..] == lines && lines[|lines|..] == [];
    for i := 0 to |lines|
      invariant all == kept + Remaining(lines, i, inManagedBlock, managed)
    {
      OneLine(lines, i, inManagedBlock, managed, kept);
      inManagedBlock, kept := ScanLine(lines[i], inManagedBlock, managed, kept);
    }
  }

  method KeptLines(lines: seq<string>, managed: set<string>) returns (kept: seq<string>)
    ensures kept == Kept(lines, managed)
  {
    kept := UnmanagedLines(lines, managed);
    while |kept| > 0 && TrimSpace(kept[|kept| - 1]) == ""
      invariant WithoutBlankTail(kept) == Kept(lines, managed)
    {
      kept := kept[..|kept| - 1];
    }
  }

  method KeysOf(values: map<string, string>) returns (keys: seq<string>)
    ensures forall k :: k in keys <==> k in values
    ensures forall i, k :: 0 <= i < k < |keys| ==> keys[i] != keys[k]
  {
    keys := [];
    var todo := values.Keys;
    while todo != {}
      invariant todo <= values.Keys && forall k :: k in keys <==> k in values && k !in todo
      invariant forall i, k :: 0 <= i < k < |keys| ==> keys[i] != keys[k]
    {
      var key :| key in todo;
      keys := keys + [key];
      todo := todo - {key};
    }
  }

  method AppendBlock(kept: seq<string>, values: map<string, string>, keys: seq<string>) returns (r: seq<string>)
    requires forall k :: k in keys ==> k in values
    ensures r == kept + Block(keys, values)
  {
    r := kept + [BlockBegin];
    for i := 0 to |keys|
      invariant r == kept + [BlockBegin] + Entries(keys[..i], values)
    {
      assert keys[i] in keys;
      EntriesSnoc(keys[..i], keys[i], values);
      assert keys[..i + 1] == keys[..i] + [keys[i]];
      r := r + [keys[i] + "=" + values[keys[i]]];
    }
    assert keys[..|keys|] == keys;
    r := r + [BlockEnd];
  }

  method MergeLines(lines: seq<string>, defaults: set<string>, values: map<string, string>) returns (kept: seq<string>)
    ensures kept == MergedLines(lines, defaults, values)
  {
    kept := KeptLines(lines, defaults + values.Keys);
    var keys := KeysOf(values);
    keys := SortStrings(keys);
    SortedListingIsUnique(keys, values.Keys);
    if |keys| > 0 {
      assert keys[0] in values;
      if |kept| > 0 {
        kept := kept + [""];
      }
      kept := AppendBlock(kept, values, keys);
    } else {
      assert values.Keys == {};
    }
  }

  method MergeDotEnv(existing: string, desired: string) returns (merged: string)
    ensures merged == Merged(existing, desired)
  {
    var desiredValues := ParseDotEnvAssignments(desired);
    var kept := MergeLines(Lines(existing), DefaultManagedKeys, desiredValues);
    merged := Text(kept);
  }
}
