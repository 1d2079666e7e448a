/** What merging dotenv text achieves: exactly when a later merge absorbs an earlier one, what is read back,
    and which of the user's lines stay. */
module DotEnvLaws {
  import opened Common
  import opened DotEnv
  import opened DotEnvMerge

  predicate Marker(line: string) {
    TrimSpace(line) == BlockBegin || TrimSpace(line) == BlockEnd
  }

  predicate NoMarkers(lines: seq<string>) {
    forall l :: l in lines ==> !Marker(l)
  }

  // ---- Lines outside blocks ----

  lemma {:induction false} OutsideConcat(a: seq<string>, b: seq<string>, inBlock: bool)
    ensures Outside(a + b, inBlock) == Outside(a, inBlock) + Outside(b, InBlockAfter(a, inBlock))
  {
    if a == [] {
      assert a + b == b;
    } else {
      assert (a + b)[0] == a[0] && (a + b)[1..] == a[1..] + b;
      OutsideConcat(a[1..], b, InBlockNext(a[0], inBlock));
    }
  }

  lemma {:induction false} OutsideOfPlain(lines: seq<string>)
    requires NoMarkers(lines)
    ensures Outside(lines, false) == lines && InBlockAfter(lines, false) == false
  {
    if lines != [] {
      assert lines[0] in lines;
      OutsideOfPlain(lines[1..]);
    }
  }

  lemma {:induction false} OutsideIsPlain(lines: seq<string>, inBlock: bool)
    ensures NoMarkers(Outside(lines, inBlock))
    ensures forall l :: l in Outside(lines, inBlock) ==> l in lines
  {
    if lines != [] {
      OutsideIsPlain(lines[1..], InBlockNext(lines[0], inBlock));
    }
  }

  lemma {:induction false} InUnmanaged(lines: seq<string>, keys: set<string>, l: string)
    ensures l in Unmanaged(lines, keys) <==> l in lines && !Managed(l, keys)
  {
    if lines != [] {
      InUnmanaged(lines[1..], keys, l);
      assert lines == [lines[0]] + lines[1..];
    }
  }

  lemma {:induction false} UnmanagedTwice(lines: seq<string>, a: set<string>, b: set<string>)
    ensures Unmanaged(Unmanaged(lines, a), b) == Unmanaged(lines, a + b)
  {
    if lines != [] {
      UnmanagedTwice(lines[1..], a, b);
      UnmanagedConcat(if Managed(lines[0], a) then [] else [lines[0]], Unmanaged(lines[1..], a), b);
    }
  }

  lemma {:induction false} UnmanagedAlike(lines: seq<string>, a: set<string>, b: set<string>)
    requires forall l :: l in lines ==> Managed(l, a) == Managed(l, b)
    ensures Unmanaged(lines, a) == Unmanaged(lines, b)
  {
    if lines != [] {
      assert lines[0] in lines;
      UnmanagedAlike(lines[1..], a, b);
    }
  }

  // ---- Blank tails ----

  predicate AllBlank(lines: seq<string>) {
    forall l :: l in lines ==> Blank(l)
  }

  lemma BlankIsUnmanaged(l: string, keys: set<string>)
    requires Blank(l)
    ensures !Managed(l, keys)
  {
    if KeyOf(l).Some? {
      KeyMeansEquals(l);
      BlankHasNoContent(l, '=');
    }
  }

  lemma {:induction false} BlanksStay(lines: seq<string>, keys: set<string>)
    requires AllBlank(lines)
    ensures Unmanaged(lines, keys) == lines
  {
    if lines != [] {
      assert lines[0] in lines;
      BlankIsUnmanaged(lines[0], keys);
      BlanksStay(lines[1..], keys);
    }
  }

  lemma {:induction false} BlankTail(lines: seq<string>) returns (tail: seq<string>)
    ensures lines == WithoutBlankTail(lines) + tail && AllBlank(tail)
  {
    if lines != [] && Blank(Last(lines)) {
      var t := BlankTail(lines[..|lines| - 1]);
      tail := t + [Last(lines)];
      assert lines == lines[..|lines| - 1] + [Last(lines)];
    } else {
      tail := [];
    }
  }

  lemma {:induction false} DroppingBlanks(lines: seq<string>, tail: seq<string>)
    requires AllBlank(tail)
    ensures WithoutBlankTail(lines + tail) == WithoutBlankTail(lines)
    decreases |tail|
  {
    if tail == [] {
      assert lines + tail == lines;
    } else {
      var whole := lines + tail;
      assert Last(whole) == Last(tail) && Last(tail) in tail;
      assert whole[..|whole| - 1] == lines + tail[..|tail| - 1];
      DroppingBlanks(lines, tail[..|tail| - 1]);
    }
  }

  /** Blank tails do not matter before or after keys are taken out. */
  lemma TrimThenFilter(lines: seq<string>, tail: seq<string>, keys: set<string>)
    requires AllBlank(tail)
    ensures WithoutBlankTail(Unmanaged(WithoutBlankTail(lines) + tail, keys)) == WithoutBlankTail(Unmanaged(lines, keys))
  {
    var front := WithoutBlankTail(lines);
    UnmanagedConcat(front, tail, keys);
    BlanksStay(tail, keys);
    DroppingBlanks(Unmanaged(front, keys), tail);
    var cut := BlankTail(lines);
    UnmanagedConcat(front, cut, keys);
    BlanksStay(cut, keys);
    DroppingBlanks(Unmanaged(front, keys), cut);
  }

  lemma {:induction false} KeepsNonBlank(lines: seq<string>, l: string)
    ensures l in WithoutBlankTail(lines) ==> l in lines
    ensures l in lines && !Blank(l) ==> l in WithoutBlankTail(lines)
  {
    if lines != [] && Blank(Last(lines)) {
      KeepsNonBlank(lines[..|lines| - 1], l);
      assert lines == lines[..|lines| - 1] + [Last(lines)];
    }
  }

  // ---- The block ----

  function Entry(k: string, v: string): string {
    k + "=" + v
  }

  lemma NoIndent(s: string)
    requires s != "" && !Space(s[0])
    ensures TrimIndent(s) == s && TrimStart(s) == s
  {
  }

  lemma {:induction false} EqualsAfterKey(k: string, rest: string)
    requires '=' !in k
    ensures IndexOfEquals(k + ("=" + rest)) == |k|
  {
    if k == "" {
      assert k + ("=" + rest) == "=" + rest;
    } else {
      assert (k + ("=" + rest))[0] == k[0] && k[0] in k;
      assert (k + ("=" + rest))[1..] == k[1..] + ("=" + rest);
      assert k == [k[0]] + k[1..];
      EqualsAfterKey(k[1..], rest);
    }
  }

  lemma ValidKeyChars(k: string)
    requires ValidEnvKey(k)
    ensures '=' !in k && '\n' !in k && !Space(k[0]) && !Space(Last(k)) && k[0] != '#'
  {
    assert forall i :: 0 <= i < |k| ==> KeyChar(k[i]);
  }

  /** An entry of the block reads back as what it was written for. */
  lemma EntryReads(k: string, v: string)
    requires ValidEnvKey(k) && TrimSpace(v) == v
    ensures KeyOf(Entry(k, v)) == Some(k) && ValueOf(Entry(k, v)) == v
  {
    var line := Entry(k, v);
    ValidKeyChars(k);
    assert line == k + ("=" + v) && line[0] == k[0];
    NoIndent(line);
    EqualsAfterKey(k, v);
    assert line[..|k|] == k && line[|k| + 1..] == v;
    AlreadyTrimmed(k);
  }

  lemma EntryIsNoMarker(k: string, v: string)
    requires ValidEnvKey(k)
    ensures !Marker(Entry(k, v))
  {
    var line := Entry(k, v);
    ValidKeyChars(k);
    assert line[0] == k[0];
    NoIndent(line);
    TrimEndIsPrefix(line);
    var t := TrimEnd(line);
    if t != "" {
      assert t[0] == line[0];
    }
    MarkersStartWithHash();
  }

  lemma MarkersStartWithHash()
    ensures BlockBegin != "" && BlockEnd != "" && BlockBegin[0] == '#' && BlockEnd[0] == '#'
  {
  }

  lemma MarkersAreTrimmed()
    ensures TrimSpace(BlockBegin) == BlockBegin && TrimSpace(BlockEnd) == BlockEnd
    ensures KeyOf(BlockBegin) == None && KeyOf(BlockEnd) == None
  {
    MarkersStartWithHash();
    assert Last(BlockBegin) == 'V' && Last(BlockEnd) == 'V';
    AlreadyTrimmed(BlockBegin);
    AlreadyTrimmed(BlockEnd);
    NoIndent(BlockBegin);
    NoIndent(BlockEnd);
  }

  lemma {:induction false} EntriesAreInside(keys: seq<string>, values: map<string, string>)
    requires Readable(values) && forall k :: k in keys ==> k in values
    ensures Outside(Entries(keys, values), true) == [] && InBlockAfter(Entries(keys, values), true)
  {
    if keys != [] {
      var k := keys[0];
      assert k in keys && Entries(keys, values)[0] == Entry(k, values[k]);
      EntryIsNoMarker(k, values[k]);
      assert Entries(keys, values)[1..] == Entries(keys[1..], values);
      EntriesAreInside(keys[1..], values);
    }
  }

  lemma BlockIsInside(keys: seq<string>, values: map<string, string>)
    requires Readable(values) && forall k :: k in keys ==> k in values
    ensures Outside(Block(keys, values), false) == []
  {
    MarkersAreTrimmed();
    MarkersDiffer();
    EntriesAreInside(keys, values);
    FrameIsInside(BlockBegin, Entries(keys, values), BlockEnd);
  }

  lemma FrameIsInside(begin: string, entries: seq<string>, end: string)
    requires TrimSpace(begin) == BlockBegin && TrimSpace(end) == BlockEnd != BlockBegin
    requires Outside(entries, true) == [] && InBlockAfter(entries, true)
    ensures Outside([begin] + entries + [end], false) == []
  {
    MarkerLines(begin, end);
    assert [begin] + entries + [end] == [begin] + (entries + [end]);
    OutsideConcat([begin], entries + [end], false);
    OutsideConcat(entries, [end], true);
  }

  lemma MarkerLines(begin: string, end: string)
    requires TrimSpace(begin) == BlockBegin && TrimSpace(end) == BlockEnd != BlockBegin
    ensures Outside([begin], false) == [] && InBlockAfter([begin], false) && Outside([end], true) == []
  {
    assert [begin][1..] == [] && [end][1..] == [];
  }

  // ---- The merged lines ----

  /** The blank line between the user's lines and the block. */
  function Gap(kept: seq<string>, values: map<string, string>): seq<string> {
    if values == map[] || kept == [] then [] else [""]
  }

  lemma EmptyIsBlank()
    ensures Blank("") && !Marker("") && AllBlank([""])
  {
  }

  lemma OutsideOfMerged(lines: seq<string>, defaults: set<string>, values: map<string, string>)
    requires Readable(values)
    ensures var kept := Kept(lines, defaults + values.Keys);
            Outside(MergedLines(lines, defaults, values), false) == kept + Gap(kept, values)
  {
    var m := defaults + values.Keys;
    var kept := Kept(lines, m);
    var front := kept + Gap(kept, values);
    forall l | l in front
      ensures !Marker(l)
    {
      EmptyIsBlank();
      OutsideIsPlain(lines, false);
      KeepsNonBlank(Unmanaged(Outside(lines, false), m), l);
      InUnmanaged(Outside(lines, false), m, l);
    }
    OutsideOfPlain(front);
    if values == map[] {
      assert MergedLines(lines, defaults, values) == front;
    } else {
      SortedKeysEnumerate(values.Keys);
      var block := Block(SortedKeys(values.Keys), values);
      BlockIsInside(SortedKeys(values.Keys), values);
      OutsideConcat(front, block, false);
      assert MergedLines(lines, defaults, values) == front + block;
    }
  }

  /** What a second merge keeps of a merged text: the lines that neither merge manages. */
  lemma KeptOfMerged(lines: seq<string>, defaults: set<string>, first: map<string, string>, second: set<string>)
    requires Readable(first)
    ensures Kept(MergedLines(lines, defaults, first), second)
         == WithoutBlankTail(Unmanaged(Outside(lines, false), defaults + first.Keys + second))
  {
    var m := defaults + first.Keys;
    var kept := Kept(lines, m);
    OutsideOfMerged(lines, defaults, first);
    EmptyIsBlank();
    TrimThenFilter(Unmanaged(Outside(lines, false), m), Gap(kept, first), second);
    UnmanagedTwice(Outside(lines, false), m, second);
  }

  // ---- Absorption ----

  /** Every key that the first merge manages beyond the defaults, and that the user's lines assign, is managed
      by the second merge too. */
  predicate Subsumed(lines: seq<string>, defaults: set<string>, first: set<string>, second: set<string>) {
    forall l :: l in Outside(lines, false) && Managed(l, first) ==> Managed(l, defaults + second)
  }

  lemma {:induction false} EntryOf(keys: seq<string>, values: map<string, string>, l: string) returns (k: string)
    requires (forall k :: k in keys ==> k in values) && l in Entries(keys, values)
    ensures k in keys && l == Entry(k, values[k])
  {
    if l == Entries(keys, values)[0] {
      k := keys[0];
    } else {
      assert Entries(keys, values)[1..] == Entries(keys[1..], values);
      k := EntryOf(keys[1..], values, l);
    }
  }

  // ---- From lines to text ----

  /** No line ends in a further carriage return after the one a scanner drops. */
  predicate NoCrs(lines: seq<string>) {
    forall l :: l in lines ==> DropCr(l) == l
  }

  lemma EntryIsOneLine(k: string, v: string)
    requires ValidEnvKey(k) && TrimSpace(v) == v && '\n' !in v
    ensures '\n' !in Entry(k, v) && DropCr(Entry(k, v)) == Entry(k, v)
  {
    ValidKeyChars(k);
    TrimSpaceTwice(v);
    if v != "" {
      assert Last(Entry(k, v)) == Last(v);
    } else {
      assert Last(Entry(k, v)) == '=';
    }
  }

  lemma MarkersAreLines()
    ensures '\n' !in BlockBegin && '\n' !in BlockEnd && DropCr(BlockBegin) == BlockBegin && DropCr(BlockEnd) == BlockEnd
  {
    assert Last(BlockBegin) == 'V' && Last(BlockEnd) == 'V';
  }

  lemma BlockIsLines(values: map<string, string>, keys: seq<string>, l: string)
    requires Readable(values) && (forall k :: k in keys ==> k in values) && l in Block(keys, values)
    ensures '\n' !in l && DropCr(l) == l
  {
    MarkersAreLines();
    if l in Entries(keys, values) {
      var k := EntryOf(keys, values, l);
      EntryIsOneLine(k, values[k]);
    }
  }

  lemma MergedIsLines(lines: seq<string>, defaults: set<string>, values: map<string, string>)
    requires NoNewlines(lines) && Readable(values)
    ensures NoNewlines(MergedLines(lines, defaults, values))
    ensures NoCrs(lines) ==> NoCrs(MergedLines(lines, defaults, values))
  {
    var m := defaults + values.Keys;
    var out := Outside(lines, false);
    SortedKeysEnumerate(values.Keys);
    forall l | l in MergedLines(lines, defaults, values)
      ensures '\n' !in l && (NoCrs(lines) ==> DropCr(l) == l)
    {
      if l in Kept(lines, m) {
        KeepsNonBlank(Unmanaged(out, m), l);
        InUnmanaged(out, m, l);
        OutsideIsPlain(lines, false);
      } else if l != "" {
        BlockIsLines(values, SortedKeys(values.Keys), l);
      }
    }
  }

  lemma SameWithoutCrs(lines: seq<string>)
    requires NoCrs(lines)
    ensures DropCrs(lines) == lines
  {
    forall i | 0 <= i < |lines|
      ensures DropCrs(lines)[i] == lines[i]
    {
      assert lines[i] in lines;
    }
  }

  lemma EmptyTextMerges(defaults: set<string>, values: map<string, string>)
    ensures MergedLines([""], defaults, values) == MergedLines([], defaults, values)
    ensures Outside([""], false) == [""] && Lines("\n") == [""]
  {
    EmptyIsBlank();
    assert [""][1..] == [];
    BlanksStay([""], defaults + values.Keys);
    assert [""][..0] == [];
    assert "\n"[1..] == "";
  }

  // ---- Carriage returns at the end of lines ----

  /** A carriage return at its end does not change what a line is. */
  lemma SameWithoutCr(l: string)
    ensures TrimSpace(DropCr(l)) == TrimSpace(l) && KeyOf(DropCr(l)) == KeyOf(l)
  {
    ReadsWithoutCr(l);
    if DropCr(l) != l {
      assert l == DropCr(l) + ['\r'];
      TrimDropsTail(DropCr(l), '\r');
    }
  }

  lemma DropCrsCons(lines: seq<string>)
    requires lines != []
    ensures DropCrs(lines) == [DropCr(lines[0])] + DropCrs(lines[1..])
  {
  }

  lemma DropCrsSnoc(lines: seq<string>)
    requires lines != []
    ensures DropCrs(lines)[..|lines| - 1] == DropCrs(lines[..|lines| - 1]) && Last(DropCrs(lines)) == DropCr(Last(lines))
  {
  }

  lemma {:induction false} OutsideWithoutCrs(lines: seq<string>, inBlock: bool)
    ensures Outside(DropCrs(lines), inBlock) == DropCrs(Outside(lines, inBlock))
  {
    if lines != [] {
      DropCrsCons(lines);
      SameWithoutCr(lines[0]);
      OutsideWithoutCrs(lines[1..], InBlockNext(lines[0], inBlock));
      assert DropCrs(lines)[1..] == DropCrs(lines[1..]);
      if !Marker(lines[0]) && !inBlock {
        DropCrsCons(Outside(lines, inBlock));
      }
    }
  }

  lemma {:induction false} UnmanagedWithoutCrs(lines: seq<string>, keys: set<string>)
    ensures Unmanaged(DropCrs(lines), keys) == DropCrs(Unmanaged(lines, keys))
  {
    if lines != [] {
      DropCrsCons(lines);
      SameWithoutCr(lines[0]);
      UnmanagedWithoutCrs(lines[1..], keys);
      assert DropCrs(lines)[1..] == DropCrs(lines[1..]);
      if !Managed(lines[0], keys) {
        DropCrsCons(Unmanaged(lines, keys));
      }
    }
  }

  lemma {:induction false} TrimmedWithoutCrs(lines: seq<string>)
    ensures WithoutBlankTail(DropCrs(lines)) == DropCrs(WithoutBlankTail(lines))
  {
    if lines != [] {
      DropCrsSnoc(lines);
      SameWithoutCr(Last(lines));
      if Blank(Last(lines)) {
        TrimmedWithoutCrs(lines[..|lines| - 1]);
      }
    }
  }

  lemma KeptWithoutCrs(lines: seq<string>, keys: set<string>)
    ensures Kept(DropCrs(lines), keys) == DropCrs(Kept(lines, keys))
  {
    OutsideWithoutCrs(lines, false);
    UnmanagedWithoutCrs(Outside(lines, false), keys);
    TrimmedWithoutCrs(Unmanaged(Outside(lines, false), keys));
  }

  lemma NoCrsIff(lines: seq<string>)
    ensures DropCrs(lines) == lines <==> NoCrs(lines)
  {
    if NoCrs(lines) {
      SameWithoutCrs(lines);
    } else {
      var l :| l in lines && DropCr(l) != l;
      var i :| 0 <= i < |lines| && lines[i] == l;
      assert DropCrs(lines)[i] != lines[i];
    }
  }

  /** What a merge keeps of a text that was written from these lines. */
  lemma KeptOfText(lines: seq<string>, keys: set<string>)
    requires NoNewlines(lines)
    ensures Kept(Lines(Text(lines)), keys) == DropCrs(Kept(lines, keys))
  {
    if lines == [] {
      var none: map<string, string> := map[];
      EmptyTextMerges(keys, none);
      assert keys + none.Keys == keys;
      assert Kept([], keys) == [];
    } else {
      LinesOfText(lines);
      KeptWithoutCrs(lines, keys);
    }
  }

  // ---- Texts are equal exactly when their lines are ----

  lemma {:induction false} TextStarts(lines: seq<string>)
    requires NoNewlines(lines) && lines != []
    ensures FirstLine(Text(lines)) == lines[0] && |Text(lines)| > |lines[0]|
    ensures Text(lines)[|lines[0]| + 1..] == if |lines| == 1 then "" else Text(lines[1..])
  {
    var rest := if |lines| == 1 then "" else Text(lines[1..]);
    assert lines[0] in lines;
    assert Text(lines) == lines[0] + ("\n" + rest);
    FirstLineOf(lines[0], "\n" + rest);
  }

  lemma {:induction false} TextIsInjective(a: seq<string>, b: seq<string>)
    requires NoNewlines(a) && NoNewlines(b) && a != [] && b != [] && Text(a) == Text(b)
    ensures a == b
    decreases |a|
  {
    TextStarts(a);
    TextStarts(b);
    if |a| > 1 && |b| > 1 {
      TextIsInjective(a[1..], b[1..]);
      assert a == [a[0]] + a[1..] && b == [b[0]] + b[1..];
    } else if |a| > 1 {
      TextIsNotEmpty(a[1..]);
    } else if |b| > 1 {
      TextIsNotEmpty(b[1..]);
    } else {
      assert a == [a[0]] && b == [b[0]];
    }
  }

  lemma TextIsNotEmpty(lines: seq<string>)
    ensures Text(lines) != ""
  {
  }

  /** Lines with nothing blank at the end, a gap, and the block. */
  ghost function Assembled(kept: seq<string>, values: map<string, string>): seq<string> {
    SortedKeysEnumerate(values.Keys);
    if values == map[] then kept else kept + Gap(kept, values) + Block(SortedKeys(values.Keys), values)
  }

  lemma AssembledIsInjective(a: seq<string>, b: seq<string>, values: map<string, string>)
    requires Assembled(a, values) == Assembled(b, values)
    ensures a == b
  {
    if values != map[] {
      SortedKeysEnumerate(values.Keys);
      var block := Block(SortedKeys(values.Keys), values);
      var x, y := a + Gap(a, values), b + Gap(b, values);
      assert |x + block| == |y + block|;
      assert x == (x + block)[..|x|] && y == (y + block)[..|y|];
      assert a == x[..|a|] && b == y[..|b|];
    }
  }

  predicate Trimmed(lines: seq<string>) {
    lines == [] || !Blank(Last(lines))
  }

  lemma {:induction false} KeptIsTrimmed(lines: seq<string>)
    ensures Trimmed(WithoutBlankTail(lines))
  {
    if lines != [] && Blank(Last(lines)) {
      KeptIsTrimmed(lines[..|lines| - 1]);
    }
  }

  lemma AssembledTexts(a: seq<string>, b: seq<string>, values: map<string, string>)
    requires Trimmed(a) && Trimmed(b) && NoNewlines(a) && NoNewlines(b) && Readable(values)
    ensures Text(Assembled(a, values)) == Text(Assembled(b, values)) <==> a == b
  {
    if Text(Assembled(a, values)) == Text(Assembled(b, values)) {
      AssembledIsLines(a, values);
      AssembledIsLines(b, values);
      var x, y := Assembled(a, values), Assembled(b, values);
      EmptyIsBlank();
      if x != [] && y != [] {
        TextIsInjective(x, y);
      } else if x != [] {
        TextIsInjective(x, [""]);
      } else if y != [] {
        TextIsInjective(y, [""]);
      }
      AssembledIsInjective(a, b, values);
    }
  }

  lemma AssembledIsLines(kept: seq<string>, values: map<string, string>)
    requires NoNewlines(kept) && Readable(values) && Trimmed(kept)
    ensures NoNewlines(Assembled(kept, values)) && Assembled(kept, values) != [""]
  {
    SortedKeysEnumerate(values.Keys);
    EmptyIsBlank();
    forall l | l in Assembled(kept, values)
      ensures '\n' !in l
    {
      if l !in kept && l != "" {
        BlockIsLines(values, SortedKeys(values.Keys), l);
      }
    }
  }

  // ---- Absorption, for every text ----

  lemma DroppedCr(lines: seq<string>, l: string) returns (l': string)
    requires l in DropCrs(lines)
    ensures l' in lines && DropCr(l') == l
  {
    var i :| 0 <= i < |DropCrs(lines)| && DropCrs(lines)[i] == l;
    l' := lines[i];
  }

  /** Lines that a second merge keeps of a first one are what it keeps of the original, exactly when the first merge
      took out no key of its own and no kept line loses a carriage return. */
  lemma KeptTwiceIff(lines: seq<string>, defaults: set<string>, first: set<string>, second: set<string>)
    ensures DropCrs(WithoutBlankTail(Unmanaged(Outside(lines, false), defaults + first + (defaults + second))))
              == Kept(lines, defaults + second) <==>
            Subsumed(lines, defaults, first, second) && NoCrs(Kept(lines, defaults + second))
  {
    var out := Outside(lines, false);
    var all, m := defaults + first + (defaults + second), defaults + second;
    if Subsumed(lines, defaults, first, second) {
      UnmanagedAlike(out, all, m);
      NoCrsIff(Kept(lines, m));
    } else {
      var l :| l in out && Managed(l, first) && !Managed(l, m);
      LostLine(lines, defaults, first, second, l);
    }
  }

  lemma LostLine(lines: seq<string>, defaults: set<string>, first: set<string>, second: set<string>, l: string)
    requires l in Outside(lines, false) && Managed(l, first) && !Managed(l, defaults + second)
    ensures l in Kept(lines, defaults + second)
    ensures l !in DropCrs(WithoutBlankTail(Unmanaged(Outside(lines, false), defaults + first + (defaults + second))))
  {
    var out := Outside(lines, false);
    var all, m := defaults + first + (defaults + second), defaults + second;
    KeyMeansEquals(l);
    if Blank(l) {
      BlankHasNoContent(l, '=');
    }
    InUnmanaged(out, m, l);
    KeepsNonBlank(Unmanaged(out, m), l);
    forall l' | l' in WithoutBlankTail(Unmanaged(out, all))
      ensures DropCr(l') != l
    {
      KeepsNonBlank(Unmanaged(out, all), l');
      InUnmanaged(out, all, l');
      SameWithoutCr(l');
    }
    if l in DropCrs(WithoutBlankTail(Unmanaged(out, all))) {
      var l' := DroppedCr(WithoutBlankTail(Unmanaged(out, all)), l);
    }
  }

  /** Merging twice equals merging the second text alone, for every text, if and only if no line of the user's own
      assigns a key that only the first text manages, and no line that the second merge keeps still ends in a
      carriage return. */
  lemma MergeAbsorbsIff(e: string, first: string, second: string)
    ensures var (f, s) := (Assignments(Lines(first)).Keys, Assignments(Lines(second)).Keys);
            Merged(Merged(e, first), second) == Merged(e, second) <==>
            Subsumed(Lines(e), DefaultManagedKeys, f, s) && NoCrs(Kept(Lines(e), DefaultManagedKeys + s))
  {
    LinesHaveNoNewlines(first);
    LinesHaveNoNewlines(second);
    AssignmentsAreReadable(Lines(first));
    AssignmentsAreReadable(Lines(second));
    AbsorbsIff(e, DefaultManagedKeys, Assignments(Lines(first)), Assignments(Lines(second)));
  }

  lemma AbsorbsIff(e: string, defaults: set<string>, first: map<string, string>, second: map<string, string>)
    requires Readable(first) && Readable(second)
    ensures Text(MergedLines(Lines(Text(MergedLines(Lines(e), defaults, first))), defaults, second))
              == Text(MergedLines(Lines(e), defaults, second)) <==>
            Subsumed(Lines(e), defaults, first.Keys, second.Keys) && NoCrs(Kept(Lines(e), defaults + second.Keys))
  {
    var lines := Lines(e);
    var m := defaults + second.Keys;
    var once := MergedLines(lines, defaults, first);
    LinesHaveNoNewlines(e);
    MergedIsLines(lines, defaults, first);
    KeptOfText(once, m);
    KeptOfMerged(lines, defaults, first, m);
    var both := DropCrs(WithoutBlankTail(Unmanaged(Outside(lines, false), defaults + first.Keys + m)));
    assert Kept(Lines(Text(once)), m) == both;
    KeptTwiceIff(lines, defaults, first.Keys, second.Keys);
    LinesHaveNoNewlines(Text(once));
    KeptIsLines(lines, m);
    KeptIsLines(Lines(Text(once)), m);
    KeptIsTrimmed(Unmanaged(Outside(lines, false), m));
    KeptIsTrimmed(Unmanaged(Outside(Lines(Text(once)), false), m));
    AssembledTexts(both, Kept(lines, m), second);
  }

  lemma KeptIsLines(lines: seq<string>, keys: set<string>)
    requires NoNewlines(lines)
    ensures NoNewlines(Kept(lines, keys))
  {
    forall l | l in Kept(lines, keys)
      ensures '\n' !in l
    {
      KeepsNonBlank(Unmanaged(Outside(lines, false), keys), l);
      InUnmanaged(Outside(lines, false), keys, l);
      OutsideIsPlain(lines, false);
    }
  }

  /** Merging the same text again changes nothing, for every text and whatever markers it has, if and only if no line
      that the merge keeps still ends in a carriage return. */
  lemma MergeIsIdempotent(e: string, desired: string)
    ensures Merged(Merged(e, desired), desired) == Merged(e, desired) <==>
            NoCrs(Kept(Lines(e), DefaultManagedKeys + Assignments(Lines(desired)).Keys))
  {
    MergeAbsorbsIff(e, desired, desired);
  }

  /** In particular it changes nothing when no scanned line ends in a carriage return, kept or not. */
  lemma LinesWithoutCrsAreStable(e: string, desired: string)
    requires NoCrs(Lines(e))
    ensures Merged(Merged(e, desired), desired) == Merged(e, desired)
  {
    KeptHasNoCrs(Lines(e), DefaultManagedKeys + Assignments(Lines(desired)).Keys);
    MergeIsIdempotent(e, desired);
  }

  lemma KeptHasNoCrs(lines: seq<string>, keys: set<string>)
    requires NoCrs(lines)
    ensures NoCrs(Kept(lines, keys))
  {
    forall l | l in Kept(lines, keys)
      ensures DropCr(l) == l
    {
      KeepsNonBlank(Unmanaged(Outside(lines, false), keys), l);
      InUnmanaged(Outside(lines, false), keys, l);
      OutsideIsPlain(lines, false);
    }
  }

  /** Carriage returns: a line that ends in two of them loses one with every merge. */
  lemma TwoCrsAreNotStable()
    ensures Merged(Merged("a\r\r\n", ""), "") != Merged("a\r\r\n", "")
  {
    assert Assignments(Lines("")) == map[];
    CrsFade(DefaultManagedKeys);
  }

  lemma CrsFade(defaults: set<string>)
    ensures var once := Text(MergedLines(Lines("a\r\r\n"), defaults, map[]));
            once == "a\r\n" && Text(MergedLines(Lines(once), defaults, map[])) == "a\n"
  {
    ScanOfOneLine("a\r\r");
    ScanOfOneLine("a\r");
    ScanOfOneLine("a");
    assert "a\r\r" + "\n" == "a\r\r\n" && "a\r" + "\n" == "a\r\n" && "a" + "\n" == "a\n";
    assert DropCr("a\r\r") == "a\r" && DropCr("a\r") == "a";
    MergeOfOneLine("a\r", defaults);
    MergeOfOneLine("a", defaults);
  }

  lemma ScanOfOneLine(line: string)
    requires '\n' !in line
    ensures Lines(line + "\n") == [DropCr(line)] && Text([line]) == line + "\n"
  {
    LinesOfText([line]);
    assert DropCrs([line]) == [DropCr(line)];
  }

  lemma MergeOfOneLine(line: string, defaults: set<string>)
    requires line == "a" || line == "a\r"
    ensures MergedLines([line], defaults, map[]) == [line]
  {
    NoIndent(line);
    TrimEndIsPrefix(line);
    assert line[0] == 'a';
    if Blank(line) {
      BlankHasNoContent(line, 'a');
    }
    assert TrimSpace(line)[0] == 'a';
    MarkersStartWithHash();
    assert KeyOf(line) == None;
    assert [line][1..] == [];
    assert Outside([line], false) == [line];
    var none: map<string, string> := map[];
    assert Unmanaged([line], defaults + none.Keys) == [line];
  }

  // ---- Read-back ----

  lemma {:induction false} UnmanagedReads(lines: seq<string>, keys: set<string>)
    ensures Assignments(Unmanaged(lines, keys)) == Assignments(lines) - keys
    decreases |lines|
  {
    if lines != [] {
      var init, l := lines[..|lines| - 1], Last(lines);
      assert lines == init + [l];
      UnmanagedReads(init, keys);
      UnmanagedConcat(init, [l], keys);
      AssignmentsConcat(Unmanaged(init, keys), Unmanaged([l], keys));
      AssignmentsConcat(init, [l]);
      UnmanagedReadsOne(l, keys);
      TakingOut(Assignments(init), Assignments([l]), keys);
    }
  }

  lemma UnmanagedReadsOne(l: string, keys: set<string>)
    ensures Assignments(Unmanaged([l], keys)) == Assignments([l]) - keys
  {
    assert [l][1..] == [];
    AssignmentOfOne(l);
    match KeyOf(l)
    case None => TakingOutOne("", "", keys);
    case Some(k) => TakingOutOne(k, ValueOf(l), keys);
  }

  lemma TakingOutOne(k: string, v: string, keys: set<string>)
    ensures map[k := v] - keys == if k in keys then map[] else map[k := v]
    ensures forall none: map<string, string> :: none == map[] ==> none - keys == none
  {
  }

  lemma TakingOut(a: map<string, string>, b: map<string, string>, keys: set<string>)
    ensures (a - keys) + (b - keys) == (a + b) - keys
  {
  }

  lemma AssignmentOfOne(l: string)
    ensures Assignments([l]) == if KeyOf(l).Some? then map[KeyOf(l).value := ValueOf(l)] else map[]
  {
    assert [l][..0] == [] && Last([l]) == l;
  }

  lemma {:induction false} BlanksAssignNothing(lines: seq<string>)
    requires AllBlank(lines)
    ensures Assignments(lines) == map[]
    decreases |lines|
  {
    if lines != [] {
      BlanksAssignNothing(lines[..|lines| - 1]);
      assert Last(lines) in lines;
      BlankIsUnmanaged(Last(lines), if KeyOf(Last(lines)).Some? then {KeyOf(Last(lines)).value} else {});
    }
  }

  lemma {:induction false} EntriesRead(keys: seq<string>, values: map<string, string>)
    requires Readable(values) && forall k :: k in keys ==> k in values
    ensures forall k :: k in Assignments(Entries(keys, values)) <==> k in keys
    ensures forall k :: k in keys ==> Assignments(Entries(keys, values))[k] == values[k]
  {
    if keys != [] {
      var k := keys[0];
      assert k in keys;
      EntriesRead(keys[1..], values);
      EntryReads(k, values[k]);
      AssignmentOfOne(Entry(k, values[k]));
      AssignmentsConcat([Entry(k, values[k])], Entries(keys[1..], values));
      assert keys == [k] + keys[1..];
    }
  }

  lemma BlockReads(values: map<string, string>)
    requires Readable(values) && forall k :: k in SortedKeys(values.Keys) <==> k in values
    ensures Assignments(Block(SortedKeys(values.Keys), values)) == values
  {
    var entries := Entries(SortedKeys(values.Keys), values);
    EntriesRead(SortedKeys(values.Keys), values);
    MarkersAreTrimmed();
    FrameReads(BlockBegin, entries, BlockEnd);
    assert Assignments(entries) == values;
  }

  lemma FrameReads(begin: string, entries: seq<string>, end: string)
    requires KeyOf(begin) == KeyOf(end) == None
    ensures Assignments([begin] + entries + [end]) == Assignments(entries)
  {
    AssignmentOfOne(begin);
    AssignmentOfOne(end);
    AssignmentsConcat([begin] + entries, [end]);
    AssignmentsConcat([begin], entries);
  }

  lemma KeptReads(lines: seq<string>, keys: set<string>)
    ensures Assignments(Kept(lines, keys)) == Assignments(Outside(lines, false)) - keys
  {
    var all := Unmanaged(Outside(lines, false), keys);
    var tail := BlankTail(all);
    BlanksAssignNothing(tail);
    AssignmentsConcat(WithoutBlankTail(all), tail);
    UnmanagedReads(Outside(lines, false), keys);
  }

  lemma MergedReads(lines: seq<string>, defaults: set<string>, values: map<string, string>)
    requires Readable(values)
    ensures Assignments(MergedLines(lines, defaults, values))
         == (Assignments(Outside(lines, false)) - (defaults + values.Keys)) + values
  {
    var kept := Kept(lines, defaults + values.Keys);
    KeptReads(lines, defaults + values.Keys);
    if values != map[] {
      SortedKeysEnumerate(values.Keys);
      BlockReads(values);
      EmptyIsBlank();
      BlanksAssignNothing(Gap(kept, values));
      AssignmentsConcat(kept, Gap(kept, values));
      AssignmentsConcat(kept + Gap(kept, values), Block(SortedKeys(values.Keys), values));
    }
  }

  /** Reading the merged text gives the desired value for every desired key, nothing for the other managed keys,
      and for any other key what the user's own lines assign. This holds for every text. */
  lemma ReadBack(e: string, desired: string)
    ensures var values := Assignments(Lines(desired));
            Assignments(Lines(Merged(e, desired)))
            == (Assignments(Outside(Lines(e), false)) - (DefaultManagedKeys + values.Keys)) + values
  {
    LinesHaveNoNewlines(desired);
    AssignmentsAreReadable(Lines(desired));
    ReadsBack(e, DefaultManagedKeys, Assignments(Lines(desired)));
  }

  lemma ReadsBack(e: string, defaults: set<string>, values: map<string, string>)
    requires Readable(values)
    ensures Assignments(Lines(Text(MergedLines(Lines(e), defaults, values))))
         == (Assignments(Outside(Lines(e), false)) - (defaults + values.Keys)) + values
  {
    var merged := MergedLines(Lines(e), defaults, values);
    LinesHaveNoNewlines(e);
    MergedIsLines(Lines(e), defaults, values);
    MergedReads(Lines(e), defaults, values);
    if merged == [] {
      EmptyTextMerges(defaults, values);
      EmptyIsBlank();
      BlanksAssignNothing([""]);
      assert Assignments([]) == map[];
    } else {
      LinesOfText(merged);
      AssignmentsWithoutCrs(merged);
    }
  }

  /** For every text, the user's kept lines stay in their order, up to blank lines at the end and a further carriage
      return at the end of a line; exactly as they are if and only if none has one. */
  lemma UserLinesStay(e: string, desired: string)
    ensures var kept := Kept(Lines(e), DefaultManagedKeys + Assignments(Lines(desired)).Keys);
            var now := WithoutBlankTail(Outside(Lines(Merged(e, desired)), false));
            now == DropCrs(kept) && (now == kept <==> NoCrs(kept))
  {
    LinesHaveNoNewlines(desired);
    AssignmentsAreReadable(Lines(desired));
    LinesStay(e, DefaultManagedKeys, Assignments(Lines(desired)));
    NoCrsIff(Kept(Lines(e), DefaultManagedKeys + Assignments(Lines(desired)).Keys));
  }

  lemma LinesStay(e: string, defaults: set<string>, values: map<string, string>)
    requires Readable(values)
    ensures WithoutBlankTail(Outside(Lines(Text(MergedLines(Lines(e), defaults, values))), false))
         == DropCrs(Kept(Lines(e), defaults + values.Keys))
  {
    var merged := MergedLines(Lines(e), defaults, values);
    var kept := Kept(Lines(e), defaults + values.Keys);
    LinesHaveNoNewlines(e);
    MergedIsLines(Lines(e), defaults, values);
    OutsideOfMerged(Lines(e), defaults, values);
    EmptyIsBlank();
    DroppingBlanks(kept, Gap(kept, values));
    TrimmedTwice(Unmanaged(Outside(Lines(e), false), defaults + values.Keys));
    if merged == [] {
      EmptyTextMerges(defaults, values);
      DroppingBlanks([], [""]);
      assert [] + [""] == [""];
      assert kept == [];
    } else {
      LinesOfText(merged);
      OutsideWithoutCrs(merged, false);
      TrimmedWithoutCrs(Outside(merged, false));
    }
  }

  lemma {:induction false} TrimmedTwice(lines: seq<string>)
    ensures WithoutBlankTail(WithoutBlankTail(lines)) == WithoutBlankTail(lines)
  {
    if lines != [] && Blank(Last(lines)) {
      TrimmedTwice(lines[..|lines| - 1]);
    }
  }
}
