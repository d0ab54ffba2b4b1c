/** The string operations the ingestion code leans on. */
module Strings {

  /** str.isspace for one character. */
  predicate IsSpace(c: char) {
    var n := c as int;
    || 9 <= n <= 13 || 28 <= n <= 32 || n == 0x85 || n == 0xA0 || n == 0x1680
    || 0x2000 <= n <= 0x200A || n == 0x2028 || n == 0x2029 || n == 0x202F || n == 0x205F || n == 0x3000
  }

  /** src.startswith of a two-, three- and four-character pattern at `i`. */
  predicate Two(src: string, i: nat, c0: char, c1: char) {
    i + 1 < |src| && src[i] == c0 && src[i + 1] == c1
  }

  predicate Three(src: string, i: nat, c0: char, c1: char, c2: char) {
    i + 2 < |src| && src[i] == c0 && src[i + 1] == c1 && src[i + 2] == c2
  }

  predicate Four(src: string, i: nat, c0: char, c1: char, c2: char, c3: char) {
    Two(src, i, c0, c1) && Two(src, i + 2, c2, c3)
  }

  /** The end of the longest run of characters in `p` from `i`. */
  function RunEnd(src: string, i: nat, p: char -> bool): (end: nat)
    requires i <= |src|
    ensures i <= end <= |src|
    ensures end < |src| ==> !p(src[end])
    decreases |src| - i
  {
    if i < |src| && p(src[i]) then RunEnd(src, i + 1, p) else i
  }

  lemma {:induction false} RunAll(src: string, i: nat, p: char -> bool)
    requires i <= |src|
    ensures forall k :: i <= k < RunEnd(src, i, p) ==> p(src[k])
    decreases |src| - i
  {
    if i < |src| && p(src[i]) { RunAll(src, i + 1, p); }
  }

  predicate Blank(s: string) {
    forall i :: 0 <= i < |s| ==> IsSpace(s[i])
  }

  /** The end of `s[from..upto]` once trailing whitespace is dropped. */
  function SolidEnd(s: string, from: nat, upto: nat): (end: nat)
    requires from <= upto <= |s|
    ensures from <= end <= upto
    ensures forall k :: end <= k < upto ==> IsSpace(s[k])
    ensures end > from ==> !IsSpace(s[end - 1])
    decreases upto
  {
    if upto > from && IsSpace(s[upto - 1]) then SolidEnd(s, from, upto - 1) else upto
  }

  /** s.strip(). */
  function Strip(s: string): (r: string)
    ensures Stripped(r)
    ensures r == "" <==> Blank(s)
    ensures Stripped(s) ==> r == s
  {
    var from := RunEnd(s, 0, IsSpace);
    RunAll(s, 0, IsSpace);
    s[from..SolidEnd(s, from, |s|)]
  }

  lemma StripParts(s: string) returns (from: nat, end: nat)
    ensures from <= end <= |s| && Strip(s) == s[from..end] && Blank(s[..from]) && Blank(s[end..])
  {
    hide IsSpace;
    RunAll(s, 0, IsSpace);
    from := RunEnd(s, 0, IsSpace);
    end := SolidEnd(s, from, |s|);
  }

  predicate Stripped(s: string) {
    s != "" ==> !IsSpace(s[0]) && !IsSpace(s[|s| - 1])
  }

  lemma {:induction false} RunIs(s: string, i: nat, end: nat, p: char -> bool)
    requires i <= end <= |s| && (forall k :: i <= k < end ==> p(s[k])) && (end < |s| ==> !p(s[end]))
    ensures RunEnd(s, i, p) == end
    decreases end - i
  {
    if i < end { RunIs(s, i + 1, end, p); }
  }

  lemma {:induction false} SolidIs(s: string, from: nat, upto: nat, end: nat)
    requires from <= end <= upto <= |s| && (forall k :: end <= k < upto ==> IsSpace(s[k]))
    requires end > from && !IsSpace(s[end - 1])
    ensures SolidEnd(s, from, upto) == end
    decreases upto
  {
    hide IsSpace;
    if upto > end { SolidIs(s, from, upto - 1, end); }
  }

  /** Stripping takes off exactly the whitespace around. */
  lemma StripIs(before: string, text: string, after: string)
    requires Blank(before) && Blank(after) && Stripped(text) && text != ""
    ensures Strip(before + text + after) == text
  {
    hide IsSpace;
    var s, n := before + text + after, |before|;
    assert s[n] == text[0] && s[n + |text| - 1] == text[|text| - 1];
    RunIs(s, 0, n, IsSpace);
    assert forall k :: n + |text| <= k < |s| ==> s[k] == after[k - n - |text|];
    SolidIs(s, n, |s|, n + |text|);
    assert s[n..n + |text|] == text;
  }

  /** sep.join(parts). */
  function Join(parts: seq<string>, sep: string): string {
    if |parts| == 0 then ""
    else if |parts| == 1 then parts[0]
    else parts[0] + sep + Join(parts[1..], sep)
  }

  /** s.split("\n"). */
  function Lines(s: string): (lines: seq<string>)
    ensures |lines| > 0
  {
    if s == "" then [""]
    else if s[0] == '\n' then [""] + Lines(s[1..])
    else [[s[0]] + Lines(s[1..])[0]] + Lines(s[1..])[1..]
  }

  predicate OneLine(s: string) { '\n' !in s }

  lemma {:induction false} JoinLines(s: string)
    ensures Join(Lines(s), "\n") == s
  {
    if s != "" {
      var rest := Lines(s[1..]);
      JoinLines(s[1..]);
      assert Lines(s)[1..] == if s[0] == '\n' then rest else rest[1..];
      assert s == [s[0]] + s[1..];
    }
  }

  lemma {:induction false} LinesAppend(a: string, b: string)
    ensures Lines(a + "\n" + b) == Lines(a) + Lines(b)
  {
    if a == "" {
      assert (a + "\n" + b)[1..] == b;
    } else {
      assert (a + "\n" + b)[1..] == a[1..] + "\n" + b;
      LinesAppend(a[1..], b);
    }
  }

  lemma {:induction false} LinesOfLine(s: string)
    requires OneLine(s)
    ensures Lines(s) == [s]
  {
    if s != "" {
      LinesOfLine(s[1..]);
      assert [s[0]] + s[1..] == s;
    }
  }

  lemma {:induction false} LinesAreLines(s: string)
    ensures forall k :: 0 <= k < |Lines(s)| ==> OneLine(Lines(s)[k])
  {
    if s != "" { LinesAreLines(s[1..]); }
  }

  lemma {:induction false} LinesOfJoin(lines: seq<string>)
    requires lines != [] && forall k :: 0 <= k < |lines| ==> OneLine(lines[k])
    ensures Lines(Join(lines, "\n")) == lines
  {
    LinesOfLine(lines[0]);
    if |lines| > 1 {
      LinesOfJoin(lines[1..]);
      LinesAppend(lines[0], Join(lines[1..], "\n"));
    }
  }

  lemma {:induction false} JoinAppend(a: seq<string>, b: seq<string>, sep: string)
    requires a != [] && b != []
    ensures Join(a + b, sep) == Join(a, sep) + sep + Join(b, sep)
  {
    assert (a + b)[0] == a[0] && (a + b)[1..] == a[1..] + b;
    if |a| > 1 {
      JoinAppend(a[1..], b, sep);
      var x, y, z := a[0] + sep, Join(a[1..], sep), sep + Join(b, sep);
      assert x + (y + z) == (x + y) + z && y + z == y + sep + Join(b, sep);
    } else {
      assert a[1..] + b == b;
    }
  }

  /** The length of the lines with a newline after each. */
  function Total(lines: seq<string>): nat {
    if lines == [] then 0 else |lines[0]| + 1 + Total(lines[1..])
  }

  lemma {:induction false} TotalAppend(a: seq<string>, b: seq<string>)
    ensures Total(a + b) == Total(a) + Total(b)
  {
    if a == [] {
      assert a + b == b;
    } else {
      assert (a + b)[1..] == a[1..] + b;
      TotalAppend(a[1..], b);
    }
  }

  lemma {:induction false} TotalJoin(lines: seq<string>)
    requires lines != []
    ensures Total(lines) == |Join(lines, "\n")| + 1
  {
    if |lines| > 1 { TotalJoin(lines[1..]); }
  }

  /** The characters of `s` that are not whitespace, in order. */
  function Ink(s: string): string {
    if s == "" then "" else (if IsSpace(s[0]) then "" else [s[0]]) + Ink(s[1..])
  }

  lemma {:induction false} InkAppend(a: string, b: string)
    ensures Ink(a + b) == Ink(a) + Ink(b)
  {
    if a == "" {
      assert a + b == b;
    } else {
      assert (a + b)[1..] == a[1..] + b;
      InkAppend(a[1..], b);
    }
  }

  lemma {:induction false} BlankInk(s: string)
    requires Blank(s)
    ensures Ink(s) == ""
  {
    if s != "" { BlankInk(s[1..]); }
  }

  lemma InkBetween(s: string, from: nat, upto: nat)
    requires from <= upto <= |s| && Blank(s[..from]) && Blank(s[upto..])
    ensures Ink(s[from..upto]) == Ink(s)
  {
    BlankInk(s[..from]);
    BlankInk(s[upto..]);
    InkAppend(s[..from], s[from..upto]);
    InkAppend(s[..upto], s[upto..]);
    assert s[..from] + s[from..upto] == s[..upto] && s[..upto] + s[upto..] == s;
  }

  lemma StripInk(s: string)
    ensures Ink(Strip(s)) == Ink(s)
  {
    hide IsSpace;
    RunAll(s, 0, IsSpace);
    var from := RunEnd(s, 0, IsSpace);
    InkBetween(s, from, SolidEnd(s, from, |s|));
  }

  lemma {:induction false} JoinInk(parts: seq<string>, sep: string)
    requires Blank(sep)
    ensures Ink(Join(parts, sep)) == Inks(parts)
  {
    if |parts| == 1 {
      assert Inks(parts[1..]) == "";
    } else if |parts| > 1 {
      JoinInk(parts[1..], sep);
      BlankInk(sep);
      InkAppend(parts[0], sep);
      InkAppend(parts[0] + sep, Join(parts[1..], sep));
    }
  }

  function Inks(parts: seq<string>): string {
    if parts == [] then "" else Ink(parts[0]) + Inks(parts[1..])
  }

  lemma InksOne(s: string)
    ensures Inks([s]) == Ink(s) && Inks([]) == ""
  {
    assert Inks([]) == "" && [s][1..] == [];
  }

  lemma {:induction false} InksAppend(a: seq<string>, b: seq<string>)
    ensures Inks(a + b) == Inks(a) + Inks(b)
  {
    if a == [] {
      assert a + b == b;
    } else {
      assert (a + b)[1..] == a[1..] + b;
      InksAppend(a[1..], b);
    }
  }

  /** The lines that hold more than whitespace. */
  function NonBlank(lines: seq<string>): seq<string> {
    if lines == [] then [] else (if Blank(lines[0]) then [] else [lines[0]]) + NonBlank(lines[1..])
  }

  lemma NonBlankNone()
    ensures NonBlank([]) == []
  {
  }

  lemma {:induction false} NonBlankAppend(a: seq<string>, b: seq<string>)
    ensures NonBlank(a + b) == NonBlank(a) + NonBlank(b)
    decreases |a|
  {
    hide Blank;
    if a == [] {
      assert a + b == b;
    } else {
      assert (a + b)[0] == a[0] && (a + b)[1..] == a[1..] + b;
      NonBlankAppend(a[1..], b);
    }
  }
}
