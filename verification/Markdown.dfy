/** Writing Markdown: the writer's blank-line discipline, code fences, and the reflow of prose. */
module Markdown {
  import opened Strings

  // --- The writer ---------------------------------------------------------------------------------

  datatype Written = Written(buf: string, pending: bool)

  /** s.rstrip("\n"). */
  function TrimNewlines(s: string): (r: string)
    ensures |r| <= |s| && r == s[..|r|]
    ensures forall k :: |r| <= k < |s| ==> s[k] == '\n'
    ensures r != "" ==> r[|r| - 1] != '\n'
  {
    if s != "" && s[|s| - 1] == '\n' then TrimNewlines(s[..|s| - 1]) else s
  }

  /** s.lstrip("\n"). */
  function SkipNewlines(s: string): (r: string)
    ensures r != "" ==> r[0] != '\n'
  {
    if s != "" && s[0] == '\n' then SkipNewlines(s[1..]) else s
  }

  function Settled(s: Written): Written {
    Written(if s.pending && s.buf != "" then TrimNewlines(s.buf) + "\n\n" else s.buf, false)
  }

  /** Punctuation that must stay with the word before it. */
  const CLINGING: string := ".,;:!?)]}\U{00BB}\U{060C}\U{061B}\U{061F}\U{200C}"

  predicate Clings(c: char) { IsSpace(c) || c in CLINGING }

  function TextWritten(s: Written, value: string): Written {
    if value == "" then s
    else
      var t := Settled(s);
      var gap := if t.buf != "" && !IsSpace(t.buf[|t.buf| - 1]) && !Clings(value[0]) then " " else "";
      t.(buf := t.buf + gap + value)
  }

  function BlockWritten(s: Written, value: string): Written {
    if Strip(value) == "" then s
    else Written(Settled(s.(pending := s.pending || s.buf != "")).buf + Strip(value), true)
  }

  function NewlineWritten(s: Written): Written {
    if s.buf != "" && s.buf[|s.buf| - 1] != '\n' then s.(buf := s.buf + "\n") else s
  }

  function Result(s: Written): string {
    s.buf[..SolidEnd(s.buf, 0, |s.buf|)]
  }

  class Writer {
    var buf: string
    var pending: bool

    constructor ()
      ensures State() == Written("", false)
    {
      buf, pending := "", false;
    }

    function State(): Written
      reads this
    {
      Written(buf, pending)
    }

    method RequestBlock()
      modifies this
      ensures State() == old(State()).(pending := old(pending) || old(buf) != "")
    {
      if buf != "" { pending := true; }
    }

    method Settle()
      modifies this
      ensures State() == Settled(old(State()))
    {
      if pending && buf != "" { buf := TrimNewlines(buf) + "\n\n"; }
      pending := false;
    }

    method Text(value: string)
      modifies this
      ensures State() == TextWritten(old(State()), value)
    {
      if value == "" { return; }
      Settle();
      if buf != "" && !IsSpace(buf[|buf| - 1]) && !Clings(value[0]) { buf := buf + " "; }
      buf := buf + value;
    }

    method RawBlock(value: string)
      modifies this
      ensures State() == BlockWritten(old(State()), value)
    {
      var body := Strip(value);
      if body == "" { return; }
      RequestBlock();
      Settle();
      buf := buf + body;
      RequestBlock();
    }

    method Newline()
      modifies this
      ensures State() == NewlineWritten(old(State()))
    {
      if buf != "" && buf[|buf| - 1] != '\n' { buf := buf + "\n"; }
    }
  }

  // --- What a writer keeps ------------------------------------------------------------------------

  datatype Write = WriteText(value: string) | WriteBlock(value: string) | RequestBreak | WriteNewline

  function Wrote(s: Written, op: Write): Written {
    match op
    case WriteText(value) => TextWritten(s, value)
    case WriteBlock(value) => BlockWritten(s, value)
    case RequestBreak => s.(pending := s.pending || s.buf != "")
    case WriteNewline => NewlineWritten(s)
  }

  function WroteAll(s: Written, ops: seq<Write>): Written
    decreases |ops|
  {
    if ops == [] then s else WroteAll(Wrote(s, ops[0]), ops[1..])
  }

  function InkOf(op: Write): string {
    if op.WriteText? || op.WriteBlock? then Ink(op.value) else ""
  }

  function InksOf(ops: seq<Write>): string
    decreases |ops|
  {
    if ops == [] then "" else InkOf(ops[0]) + InksOf(ops[1..])
  }

  lemma NewlinesBlank(s: string)
    requires forall k :: 0 <= k < |s| ==> s[k] == '\n'
    ensures Blank(s) && Ink(s) == ""
  {
    BlankInk(s);
  }

  lemma SettledInk(s: Written)
    ensures Ink(Settled(s).buf) == Ink(s.buf)
  {
    hide IsSpace, Ink;
    if s.pending && s.buf != "" {
      var kept := TrimNewlines(s.buf);
      NewlinesBlank(s.buf[|kept|..]);
      NewlinesBlank("\n\n");
      InkAppend(kept, s.buf[|kept|..]);
      InkAppend(kept, "\n\n");
      assert kept + s.buf[|kept|..] == s.buf;
    }
  }

  lemma SpaceInk()
    ensures Ink(" ") == ""
  {
    BlankInk(" ");
  }

  lemma TextInk(s: Written, value: string)
    ensures Ink(TextWritten(s, value).buf) == Ink(s.buf) + Ink(value)
  {
    hide IsSpace, Clings, Settled, Ink;
    if value == "" {
      BlankInk(value);
    } else {
      var t := Settled(s);
      SettledInk(s);
      SpaceInk();
      InkAppend(t.buf, " ");
      InkAppend(t.buf, value);
      InkAppend(t.buf + " ", value);
      assert t.buf + "" + value == t.buf + value;
    }
  }

  lemma BlockInk(s: Written, value: string)
    ensures Ink(BlockWritten(s, value).buf) == Ink(s.buf) + Ink(value)
  {
    hide IsSpace, Ink, Settled;
    StripInk(value);
    if Strip(value) == "" {
      BlankInk("");
    } else {
      var r := s.(pending := s.pending || s.buf != "");
      SettledInk(r);
      InkAppend(Settled(r).buf, Strip(value));
    }
  }

  lemma WroteInk(s: Written, op: Write)
    ensures Ink(Wrote(s, op).buf) == Ink(s.buf) + InkOf(op)
  {
    hide TextWritten, BlockWritten, Ink;
    match op
    case WriteText(value) => TextInk(s, value);
    case WriteBlock(value) => BlockInk(s, value);
    case RequestBreak =>
    case WriteNewline =>
      NewlinesBlank("\n");
      InkAppend(s.buf, "\n");
  }

  /** Whatever is written, in whatever order, nothing but whitespace is added or lost. */
  lemma {:induction false} WriterKeepsInk(s: Written, ops: seq<Write>)
    ensures Ink(WroteAll(s, ops).buf) == Ink(s.buf) + InksOf(ops)
    decreases |ops|
  {
    if ops != [] {
      WroteInk(s, ops[0]);
      WriterKeepsInk(Wrote(s, ops[0]), ops[1..]);
    }
  }

  /** The buffer with its last newlines taken off. */
  ghost predicate Untailed(buf: string, kept: string) {
    && |kept| <= |buf| && buf[..|kept|] == kept && (forall k :: |kept| <= k < |buf| ==> buf[k] == '\n')
    && (kept != "" ==> kept[|kept| - 1] != '\n')
  }

  /** What stands before a write: one blank line after what was written, if a break is due. */
  ghost predicate Before(buf: string, due: bool, before: string) {
    if due && buf != "" then exists kept :: Untailed(buf, kept) && before == kept + "\n\n" else before == buf
  }

  /** Text follows what there is, a space apart unless either side has whitespace there or the text begins
      with punctuation that clings; a break that was due comes first. */
  lemma TextIs(s: Written, value: string)
    requires value != ""
    ensures var out := TextWritten(s, value);
      && !out.pending
      && exists before ::
           && Before(s.buf, s.pending, before)
           && out.buf == if before == "" || IsSpace(before[|before| - 1]) || IsSpace(value[0]) || value[0] in CLINGING
                         then before + value else before + " " + value
  {
    hide IsSpace;
    var before := Settled(s).buf;
    assert Untailed(s.buf, TrimNewlines(s.buf));
    assert Before(s.buf, s.pending, before) && before + "" == before;
  }

  /** A block is the value without the whitespace around it, a blank line after what there is, and a
      break is due after it; whitespace alone changes nothing. */
  lemma BlockIs(s: Written, value: string)
    ensures Blank(value) ==> BlockWritten(s, value) == s
    ensures !Blank(value) ==>
      var out := BlockWritten(s, value);
      && out.pending
      && exists before, lead, body, tail ::
           && Before(s.buf, true, before) && out.buf == before + body
           && value == lead + body + tail && Blank(lead) && Blank(tail) && Stripped(body)
  {
    var from, end := StripParts(value);
    hide IsSpace, Blank, Stripped, Strip;
    assert value == value[..from] + value[from..end] + value[end..];
    assert Untailed(s.buf, TrimNewlines(s.buf));
    var before := Settled(s.(pending := s.pending || s.buf != "")).buf;
    assert Before(s.buf, true, before);
  }

  // --- Code fences --------------------------------------------------------------------------------

  /** The longest run of backticks, given the run that reaches up to `code`. */
  function LongestRun(code: string, run: nat): (longest: nat)
    ensures longest >= run
  {
    if code == "" then run
    else if code[0] == '`' then LongestRun(code[1..], run + 1)
    else
      var rest := LongestRun(code[1..], 0);
      if rest > run then rest else run
  }

  function Ticks(n: nat): (ticks: string)
    ensures |ticks| == n && forall k :: 0 <= k < n ==> ticks[k] == '`'
  {
    if n == 0 then "" else "`" + Ticks(n - 1)
  }

  function TicksFor(code: string): (n: nat)
    ensures n >= 3 && n > LongestRun(code, 0)
  {
    if LongestRun(code, 0) + 1 > 3 then LongestRun(code, 0) + 1 else 3
  }

  function FenceBody(code: string): string {
    TrimNewlines(SkipNewlines(code))
  }

  function FenceOf(code: string, language: string): string {
    var ticks := Ticks(TicksFor(code));
    ticks + language + "\n" + FenceBody(code) + "\n" + ticks
  }

  /** No run of backticks in the code is as long as its fence. */
  lemma {:induction false} FenceOutlasts(code: string, i: nat, n: nat, run: nat)
    requires i + n <= |code| && forall k :: i <= k < i + n ==> code[k] == '`'
    ensures n <= LongestRun(code, run) && (i == 0 ==> n + run <= LongestRun(code, run))
    decreases |code|
  {
    if code != "" {
      if i > 0 {
        FenceOutlasts(code[1..], i - 1, n, if code[0] == '`' then run + 1 else 0);
      } else if n > 0 {
        FenceOutlasts(code[1..], 0, n - 1, run + 1);
      }
    }
  }
}
