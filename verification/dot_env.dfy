/** Dotenv text: how it is scanned, trimmed and read. */
module DotEnv {
  import opened Common

  // ---- Trimming ----

  predicate Space(c: char) {
    || c == ' ' || ('\U{9}' <= c <= '\U{d}') || c == '\U{85}' || c == '\U{a0}' || c == '\U{1680}'
    || ('\U{2000}' <= c <= '\U{200a}') || c == '\U{2028}' || c == '\U{2029}' || c == '\U{202f}'
    || c == '\U{205f}' || c == '\U{3000}'
  }

  function TrimStart(s: string): string {
    if s != "" && Space(s[0]) then TrimStart(s[1..]) else s
  }

  function TrimEnd(s: string): string {
    if s != "" && Space(Last(s)) then TrimEnd(s[..|s| - 1]) else s
  }

  function TrimSpace(s: string): string {
    TrimEnd(TrimStart(s))
  }

  predicate Blank(line: string) {
    TrimSpace(line) == ""
  }

  /** Drops spaces and tabs only. */
  function TrimIndent(s: string): string {
    if s != "" && (s[0] == ' ' || s[0] == '\t') then TrimIndent(s[1..]) else s
  }

  lemma {:induction false} TrimStartKeeps(s: string, c: char)
    requires c in s && !Space(c)
    ensures c in TrimStart(s)
  {
    if Space(s[0]) {
      TrimStartKeeps(s[1..], c);
    }
  }

  lemma {:induction false} TrimEndKeeps(s: string, c: char)
    requires c in s && !Space(c)
    ensures c in TrimEnd(s)
  {
    if Space(Last(s)) {
      TrimEndKeeps(s[..|s| - 1], c);
    }
  }

  lemma BlankHasNoContent(line: string, c: char)
    requires Blank(line) && !Space(c)
    ensures c !in line
  {
    if c in line {
      TrimStartKeeps(line, c);
      TrimEndKeeps(TrimStart(line), c);
    }
  }

  lemma {:induction false} TrimEndIsPrefix(s: string)
    ensures TrimEnd(s) <= s && (TrimEnd(s) != "" ==> !Space(Last(TrimEnd(s))))
  {
    if s != "" && Space(Last(s)) {
      TrimEndIsPrefix(s[..|s| - 1]);
    }
  }

  lemma {:induction false} TrimStartHead(s: string)
    ensures TrimStart(s) != "" ==> !Space(TrimStart(s)[0])
  {
    if s != "" && Space(s[0]) {
      TrimStartHead(s[1..]);
    }
  }

  /** Trimmed text starts and ends with content, and trimming it again changes nothing. */
  lemma TrimSpaceTwice(s: string)
    ensures TrimSpace(TrimSpace(s)) == TrimSpace(s)
    ensures var t := TrimSpace(s); t != "" ==> !Space(t[0]) && !Space(Last(t))
  {
    var a := TrimStart(s);
    TrimStartHead(s);
    TrimEndIsPrefix(a);
    var t := TrimEnd(a);
    if t != "" {
      assert t[0] == a[0];
    }
  }

  lemma AlreadyTrimmed(s: string)
    requires s != "" && !Space(s[0]) && !Space(Last(s))
    ensures TrimSpace(s) == s
  {
  }

  /** White space at the end does not survive trimming. */
  lemma {:induction false} TrimDropsTail(s: string, c: char)
    requires Space(c)
    ensures TrimSpace(s + [c]) == TrimSpace(s)
  {
    if s == "" {
      assert s + [c] == [c] && [c][1..] == "";
    } else if Space(s[0]) {
      assert (s + [c])[1..] == s[1..] + [c];
      TrimDropsTail(s[1..], c);
    } else {
      assert TrimStart(s + [c]) == s + [c];
      assert (s + [c])[..|s|] == s && Last(s + [c]) == c;
    }
  }

  // ---- Scanning ----

  /** The text up to the first newline. */
  function FirstLine(text: string): string {
    if text == "" || text[0] == '\n' then "" else [text[0]] + FirstLine(text[1..])
  }

  function DropCr(line: string): string {
    if line != "" && Last(line) == '\r' then line[..|line| - 1] else line
  }

  /** What a line scanner returns: lines without their newline and without one carriage return at the end;
      a newline at the very end starts no further line. */
  function Lines(text: string): seq<string>
    decreases |text|
  {
    if text == "" then []
    else
      var line := FirstLine(text);
      FirstLineFits(text);
      if |line| == |text| then [DropCr(line)] else [DropCr(line)] + Lines(text[|line| + 1..])
  }

  lemma {:induction false} FirstLineFits(text: string)
    ensures FirstLine(text) <= text && '\n' !in FirstLine(text)
    ensures |FirstLine(text)| < |text| ==> text[|FirstLine(text)|] == '\n'
  {
    if text != "" && text[0] != '\n' {
      FirstLineFits(text[1..]);
      assert text == [text[0]] + text[1..];
    }
  }

  lemma {:induction false} FirstLineOf(line: string, rest: string)
    requires '\n' !in line && (rest == "" || rest[0] == '\n')
    ensures FirstLine(line + rest) == line
  {
    if line == "" {
      assert line + rest == rest;
    } else {
      assert (line + rest)[1..] == line[1..] + rest;
      assert (line + rest)[0] == line[0] && line[0] in line;
      FirstLineOf(line[1..], rest);
      assert line == [line[0]] + line[1..];
    }
  }

  /** Lines joined by newlines, with a newline at the end. */
  function Text(lines: seq<string>): string {
    if |lines| == 0 then "\n"
    else if |lines| == 1 then lines[0] + "\n"
    else lines[0] + "\n" + Text(lines[1..])
  }

  predicate NoNewlines(lines: seq<string>) {
    forall l :: l in lines ==> '\n' !in l
  }

  function DropCrs(lines: seq<string>): seq<string> {
    seq(|lines|, i requires 0 <= i < |lines| => DropCr(lines[i]))
  }

  lemma {:induction false} LinesHaveNoNewlines(text: string)
    ensures NoNewlines(Lines(text))
    decreases |text|
  {
    if text != "" {
      var line := FirstLine(text);
      FirstLineFits(text);
      assert '\n' !in DropCr(line);
      if |line| < |text| {
        LinesHaveNoNewlines(text[|line| + 1..]);
      }
    }
  }

  /** Scanning written lines gives them back, but for one carriage return at the end of each. */
  lemma {:induction false} LinesOfText(lines: seq<string>)
    requires NoNewlines(lines) && lines != []
    ensures Lines(Text(lines)) == DropCrs(lines)
    decreases |lines|
  {
    var line := lines[0];
    assert line in lines;
    if |lines| == 1 {
      FirstScanned(line, "");
      assert line + "\n" + "" == Text(lines) && Lines("") == [];
      assert DropCrs(lines) == [DropCr(line)];
    } else {
      FirstScanned(line, Text(lines[1..]));
      LinesOfText(lines[1..]);
      assert DropCrs(lines) == [DropCr(line)] + DropCrs(lines[1..]);
    }
  }

  /** Scanning a line and what follows it. */
  lemma FirstScanned(line: string, rest: string)
    requires '\n' !in line
    ensures Lines(line + "\n" + rest) == [DropCr(line)] + Lines(rest)
  {
    var text := line + "\n" + rest;
    assert text == line + ("\n" + rest);
    FirstLineOf(line, "\n" + rest);
    assert text[|line| + 1..] == rest;
  }

  // ---- Assignments ----

  predicate KeyStart(c: char) {
    ('A' <= c <= 'Z') || ('a' <= c <= 'z') || c == '_'
  }

  predicate KeyChar(c: char) {
    KeyStart(c) || ('0' <= c <= '9')
  }

  predicate ValidEnvKey(key: string) {
    key != "" && KeyStart(key[0]) && forall i :: 0 < i < |key| ==> KeyChar(key[i])
  }

  /** The position of the first `=`, or -1. */
  function IndexOfEquals(s: string): (i: int)
    ensures -1 <= i < |s|
    ensures i >= 0 ==> s[i] == '=' && '=' !in s[..i]
    ensures i == -1 <==> '=' !in s
  {
    if s == "" then -1
    else if s[0] == '=' then 0
    else
      var i := IndexOfEquals(s[1..]);
      assert s == [s[0]] + s[1..];
      if i < 0 then -1
      else
        assert s[..i + 1] == [s[0]] + s[1..][..i];
        i + 1
  }

  /** The key a line assigns, if it is an assignment. */
  function KeyOf(line: string): Option<string> {
    var t := TrimIndent(line);
    if t == "" || t[0] == '#' then None
    else
      var i := IndexOfEquals(t);
      if i <= 0 then None
      else
        var key := TrimSpace(t[..i]);
        if ValidEnvKey(key) then Some(key) else None
  }

  /** The value a line assigns. */
  function ValueOf(line: string): string {
    TrimSpace(line[IndexOfEquals(line) + 1..])
  }

  /** What the lines assign; later lines win. */
  function Assignments(lines: seq<string>): map<string, string>
    decreases |lines|
  {
    if lines == [] then map[]
    else
      var before, line := Assignments(lines[..|lines| - 1]), Last(lines);
      if KeyOf(line).Some? then before[KeyOf(line).value := ValueOf(line)] else before
  }

  method ParseDotEnvAssignments(input: string) returns (out: map<string, string>)
    ensures out == Assignments(Lines(input))
  {
    out := map[];
    var lines := Lines(input);
    for i := 0 to |lines|
      invariant out == Assignments(lines[..i])
    {
      var key := KeyOf(lines[i]);
      assert lines[..i + 1][..i] == lines[..i];
      if key.None? {
        continue;
      }
      out := out[key.value := ValueOf(lines[i])];
    }
    assert lines[..|lines|] == lines;
  }

  lemma {:induction false} AssignmentsConcat(a: seq<string>, b: seq<string>)
    ensures Assignments(a + b) == Assignments(a) + Assignments(b)
    decreases |b|
  {
    if b == [] {
      assert a + b == a;
    } else {
      var init := b[..|b| - 1];
      assert (a + b)[..|a + b| - 1] == a + init && Last(a + b) == Last(b);
      AssignmentsConcat(a, init);
    }
  }

  /** Every value read is trimmed and every key is valid. */
  predicate Readable(values: map<string, string>) {
    forall k :: k in values ==> ValidEnvKey(k) && TrimSpace(values[k]) == values[k] && '\n' !in values[k]
  }

  lemma {:induction false} TrimIsInside(s: string, c: char)
    requires c in TrimSpace(s)
    ensures c in s
  {
    TrimEndIsPrefix(TrimStart(s));
    TrimStartIsInside(s, c);
  }

  lemma {:induction false} TrimStartIsInside(s: string, c: char)
    requires c in TrimStart(s)
    ensures c in s
  {
    if s != "" && Space(s[0]) {
      TrimStartIsInside(s[1..], c);
    }
  }

  lemma ValueIsReadable(line: string)
    requires '\n' !in line
    ensures TrimSpace(ValueOf(line)) == ValueOf(line) && '\n' !in ValueOf(line)
  {
    var rest := line[IndexOfEquals(line) + 1..];
    TrimSpaceTwice(rest);
    if '\n' in TrimSpace(rest) {
      TrimIsInside(rest, '\n');
    }
  }

  lemma {:induction false} AssignmentsAreReadable(lines: seq<string>)
    requires NoNewlines(lines)
    ensures Readable(Assignments(lines))
    decreases |lines|
  {
    if lines != [] {
      assert Last(lines) in lines;
      AssignmentsAreReadable(lines[..|lines| - 1]);
      ValueIsReadable(Last(lines));
    }
  }

  // ---- A carriage return at the end of a line does not matter for reading ----

  lemma {:induction false} IndexOfEqualsTail(s: string, c: char)
    requires c != '='
    ensures IndexOfEquals(s + [c]) == IndexOfEquals(s)
  {
    if s == "" {
      assert s + [c] == [c] && [c][1..] == "";
    } else {
      assert (s + [c])[1..] == s[1..] + [c];
      IndexOfEqualsTail(s[1..], c);
    }
  }

  lemma {:induction false} TrimIndentTail(s: string, c: char)
    requires c != ' ' && c != '\t'
    ensures TrimIndent(s + [c]) == TrimIndent(s) + [c]
  {
    if s == "" {
      assert s + [c] == [c];
    } else if s[0] == ' ' || s[0] == '\t' {
      assert (s + [c])[1..] == s[1..] + [c];
      TrimIndentTail(s[1..], c);
    }
  }

  lemma SameKeyWithCr(s: string)
    ensures KeyOf(s + ['\r']) == KeyOf(s)
  {
    TrimIndentTail(s, '\r');
    var t := TrimIndent(s);
    IndexOfEqualsTail(t, '\r');
    var i := IndexOfEquals(t);
    if i > 0 {
      assert (t + ['\r'])[..i] == t[..i];
    }
  }

  lemma SameValueWithCr(s: string)
    requires '=' in s
    ensures ValueOf(s + ['\r']) == ValueOf(s)
  {
    IndexOfEqualsTail(s, '\r');
    var rest := s[IndexOfEquals(s) + 1..];
    assert (s + ['\r'])[IndexOfEquals(s) + 1..] == rest + ['\r'];
    TrimDropsTail(rest, '\r');
  }

  lemma {:induction false} IndentHasNoEquals(s: string)
    ensures '=' in TrimIndent(s) ==> '=' in s
  {
    if s != "" && (s[0] == ' ' || s[0] == '\t') {
      IndentHasNoEquals(s[1..]);
    }
  }

  lemma KeyMeansEquals(line: string)
    requires KeyOf(line).Some?
    ensures '=' in line
  {
    IndentHasNoEquals(line);
  }

  lemma ReadsWithoutCr(line: string)
    ensures KeyOf(DropCr(line)) == KeyOf(line)
    ensures KeyOf(line).Some? ==> ValueOf(DropCr(line)) == ValueOf(line)
  {
    var s := DropCr(line);
    if s != line {
      assert line == s + ['\r'];
      SameKeyWithCr(s);
      if KeyOf(s).Some? {
        KeyMeansEquals(s);
        SameValueWithCr(s);
      }
    }
  }

  lemma {:induction false} AssignmentsWithoutCrs(lines: seq<string>)
    ensures Assignments(DropCrs(lines)) == Assignments(lines)
    decreases |lines|
  {
    if lines != [] {
      var init := lines[..|lines| - 1];
      assert DropCrs(lines)[..|lines| - 1] == DropCrs(init) && Last(DropCrs(lines)) == DropCr(Last(lines));
      AssignmentsWithoutCrs(init);
      ReadsWithoutCr(Last(lines));
    }
  }
}
