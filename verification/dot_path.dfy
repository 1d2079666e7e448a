/** Dotted paths: `splitDotPath` and its inverse. */
module DotPath {

  /** A key that can stand as one segment of a dotted path. */
  predicate Clean(segment: string) {
    segment != "" && '.' !in segment
  }

  function NonEmpty(segment: string): seq<string> {
    if segment == "" then [] else [segment]
  }

  /** The segments of `segment + rest`, where `segment` is the part read since the last dot. */
  function Cut(segment: string, rest: string): seq<string>
    decreases |rest|
  {
    if rest == "" then NonEmpty(segment)
    else if rest[0] == '.' then NonEmpty(segment) + Cut("", rest[1..])
    else Cut(segment + [rest[0]], rest[1..])
  }

  /** The segments of a dotted path; empty ones are dropped. */
  function Segments(path: string): seq<string> {
    Cut("", path)
  }

  function Join(segments: seq<string>): string {
    if segments == [] then ""
    else if |segments| == 1 then segments[0]
    else segments[0] + "." + Join(segments[1..])
  }

  lemma HeadAndRest(s: string, i: nat)
    requires i < |s|
    ensures |s[i..]| > 0 && s[i..][0] == s[i] && s[i..][1..] == s[i + 1..]
  {
    var rest := s[i..];
    assert |rest[1..]| == |s[i + 1..]|;
    forall k | 0 <= k < |s| - i - 1
      ensures rest[1..][k] == s[i + 1..][k]
    {
      assert rest[1..][k] == rest[k + 1] == s[i + 1 + k];
    }
  }

  /** One character further. */
  lemma CutStep(path: string, start: nat, i: nat)
    requires start <= i < |path|
    ensures path[i] == '.' ==>
              Cut(path[start..i], path[i..]) == NonEmpty(path[start..i]) + Cut(path[i + 1..i + 1], path[i + 1..])
    ensures path[i] != '.' ==> Cut(path[start..i], path[i..]) == Cut(path[start..i + 1], path[i + 1..])
  {
    var rest := path[i..];
    HeadAndRest(path, i);
    if path[i] == '.' {
      assert path[i + 1..i + 1] == "";
    } else {
      assert path[start..i + 1] == path[start..i] + [rest[0]];
    }
  }

  method SplitDotPath(path: string) returns (parts: seq<string>)
    ensures parts == Segments(path)
  {
    if path == "" {
      return [];
    }
    parts := [];
    var start := 0;
    for i := 0 to |path|
      invariant 0 <= start <= i
      invariant parts + Cut(path[start..i], path[i..]) == Segments(path)
    {
      CutStep(path, start, i);
      if path[i] == '.' {
        if i > start {
          parts := parts + [path[start..i]];
        }
        start := i + 1;
      }
    }
    assert path[|path|..] == "" && path[start..|path|] == path[start..];
    if start < |path| {
      parts := parts + [path[start..]];
    }
  }

  lemma {:induction false} CutAtDot(segment: string, p: string, q: string)
    ensures Cut(segment, p + "." + q) == Cut(segment, p) + Segments(q)
    decreases |p|
  {
    var s := p + "." + q;
    if p == "" {
      assert s[1..] == q;
    } else {
      assert s[1..] == p[1..] + "." + q;
      CutAtDot(if p[0] == '.' then "" else segment + [p[0]], p[1..], q);
    }
  }

  lemma {:induction false} CutWithoutDot(segment: string, rest: string)
    requires '.' !in rest
    ensures Cut(segment, rest) == NonEmpty(segment + rest)
    decreases |rest|
  {
    if rest == "" {
      assert segment + rest == segment;
    } else {
      CutWithoutDot(segment + [rest[0]], rest[1..]);
      assert segment + [rest[0]] + rest[1..] == segment + rest;
    }
  }

  lemma {:induction false} CutIsClean(segment: string, rest: string)
    requires '.' !in segment
    ensures forall s :: s in Cut(segment, rest) ==> Clean(s)
    decreases |rest|
  {
    if rest != "" {
      CutIsClean(if rest[0] == '.' then "" else segment + [rest[0]], rest[1..]);
    }
  }

  /** Splitting undoes joining, for keys a dotted path can carry. */
  lemma {:induction false} SplitJoin(segments: seq<string>)
    requires forall s :: s in segments ==> Clean(s)
    ensures Segments(Join(segments)) == segments
  {
    if segments != [] {
      assert Clean(segments[0]);
      CutWithoutDot("", segments[0]);
      assert "" + segments[0] == segments[0];
      if |segments| > 1 {
        SplitJoin(segments[1..]);
        CutAtDot("", segments[0], Join(segments[1..]));
      }
      assert segments == [segments[0]] + segments[1..];
    }
  }

  /** Appending `"." + name` adds exactly the segment `name` precisely when `name` is clean. */
  lemma SegmentsOfMember(section: string, name: string)
    ensures Segments(section + "." + name) == Segments(section) + [name] <==> Clean(name)
  {
    CutAtDot("", section, name);
    if '.' !in name {
      CutWithoutDot("", name);
      assert "" + name == name;
    }
    if Segments(section + "." + name) == Segments(section) + [name] {
      assert Segments(name) == (Segments(section) + Segments(name))[|Segments(section)|..] == [name];
      CutIsClean("", name);
      assert name in Segments(name);
    }
  }
}
