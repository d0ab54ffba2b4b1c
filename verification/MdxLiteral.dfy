/** The reader of JavaScript literals in component props: lists, objects and strings. */
module MdxLiteral {
  import opened Options
  import opened Strings
  import opened MdxScan

  datatype Span = Span(start: nat, end: nat)

  predicate OpenBracket(c: char) { c == '(' || c == '[' || c == '{' }
  predicate CloseBracket(c: char) { c == ')' || c == ']' || c == '}' }

  // --- Lists --------------------------------------------------------------------------------

  /** The first position from `i` that is not whitespace, or `end`; `i` itself when past `end`. */
  function SpaceEnd(src: string, i: nat, end: nat): (j: nat)
    requires end <= |src|
    ensures i <= j
    ensures i <= end ==> j <= end
    ensures j < end ==> !IsSpace(src[j])
    decreases if i < end then end - i else 0
  {
    if i < end && IsSpace(src[i]) then SpaceEnd(src, i + 1, end) else i
  }

  /** A comma or the end closes the item begun at `from`; blank stretches are not items. */
  function Item(src: string, from: nat, i: nat): seq<Span>
    requires from <= i <= |src|
  {
    if Blank(src[from..i]) then [] else [Span(from, i)]
  }

  /** Past the JSX element that a `<` at `i` opens; past the `<` alone when it opens none. */
  function ElementEnd(src: string, i: nat): (end: nat)
    requires i < |src| && src[i] == '<'
    ensures i < end <= |src|
  {
    var name := TagName(src, i + 1);
    if name != "" then ParseElement(src, i, name).end
    else if Two(src, i, '<', '>') then ParseChildren(src, i + 2, Some("")).end
    else i + 1
  }

  predicate InRange(spans: seq<Span>, n: nat) {
    forall k :: 0 <= k < |spans| ==> spans[k].start <= spans[k].end <= n
  }

  /** The item loop from position `i` at nesting `depth`, with an item begun at `from`. */
  function SplitFrom(src: string, i: nat, end: nat, depth: int, from: nat, closer: char): (spans: seq<Span>)
    requires from <= i <= |src| && end <= |src|
    ensures InRange(spans, |src|)
    decreases |src| - i
  {
    if i >= end then Item(src, from, i)
    else if Quote(src[i]) then SplitFrom(src, SkipString(src, i), end, depth, from, closer)
    else if OpenBracket(src[i]) then SplitFrom(src, i + 1, end, depth + 1, from, closer)
    else if CloseBracket(src[i]) then
      if depth == 0 && src[i] == closer then Item(src, from, i)
      else SplitFrom(src, i + 1, end, depth - 1, from, closer)
    else if src[i] == '<' && depth == 0 then SplitFrom(src, ElementEnd(src, i), end, depth, from, closer)
    else if src[i] == ',' && depth == 0 then
      Item(src, from, i) + SplitFrom(src, i + 1, end, depth, i + 1, closer)
    else SplitFrom(src, i + 1, end, depth, from, closer)
  }

  function SplitList(src: string, start: nat, end: nat, opener: char, closer: char): (spans: seq<Span>)
    requires end <= |src|
    ensures InRange(spans, |src|)
  {
    var i := SpaceEnd(src, start, end);
    if i >= end || src[i] != opener then [] else SplitFrom(src, i + 1, end, 0, i + 1, closer)
  }

  method ScanSpace(src: string, start: nat, end: nat) returns (i: nat)
    requires end <= |src|
    ensures i == SpaceEnd(src, start, end)
  {
    i := start;
    while i < end && IsSpace(src[i])
      invariant start <= i && SpaceEnd(src, i, end) == SpaceEnd(src, start, end)
      decreases end - i
    {
      i := i + 1;
    }
  }

  method ScanElementEnd(src: string, i: nat) returns (end: nat)
    requires i < |src| && src[i] == '<'
    ensures end == ElementEnd(src, i)
  {
    var name := TagName(src, i + 1);
    if name != "" {
      var tag := ScanAttrs(src, i + 1 + |name|);
      if tag.selfClosing || IsVoid(name) { return tag.end; }
      var children;
      children, end := ScanChildren(src, tag.end, Some(name));
    } else if Two(src, i, '<', '>') {
      var children;
      children, end := ScanChildren(src, i + 2, Some(""));
    } else {
      end := i + 1;
    }
  }

  lemma ItemStep(src: string, i: nat, end: nat, from: nat, closer: char, items: seq<Span>)
    requires from <= i < end <= |src| && src[i] == ','
    ensures items + SplitFrom(src, i, end, 0, from, closer)
         == (items + Item(src, from, i)) + SplitFrom(src, i + 1, end, 0, i + 1, closer)
  {
    var rest := SplitFrom(src, i + 1, end, 0, i + 1, closer);
    assert items + (Item(src, from, i) + rest) == (items + Item(src, from, i)) + rest;
  }

  method ScanList(src: string, start: nat, end: nat, opener: char, closer: char) returns (items: seq<Span>)
    requires end <= |src|
    ensures items == SplitList(src, start, end, opener, closer)
  {
    hide SplitFrom, SpaceEnd;
    var i := ScanSpace(src, start, end);
    if i >= end || src[i] != opener { return []; }
    items := ScanItems(src, i + 1, end, closer);
  }

  method ScanItems(src: string, start: nat, end: nat, closer: char) returns (items: seq<Span>)
    requires start <= end <= |src|
    ensures items == SplitFrom(src, start, end, 0, start, closer)
  {
    hide Quote, SkipString, ElementEnd, Item;
    items := [];
    var from: nat, i: nat, depth := start, start, 0;
    while i < end
      invariant from <= i <= |src|
      invariant items + SplitFrom(src, i, end, depth, from, closer) == SplitFrom(src, start, end, 0, start, closer)
      decreases |src| - i
    {
      if Quote(src[i]) {
        i := ScanString(src, i);
      } else if OpenBracket(src[i]) {
        i, depth := i + 1, depth + 1;
      } else if CloseBracket(src[i]) {
        if depth == 0 && src[i] == closer { break; }
        i, depth := i + 1, depth - 1;
      } else if src[i] == '<' && depth == 0 {
        i := ScanElementEnd(src, i);
      } else if src[i] == ',' && depth == 0 {
        ItemStep(src, i, end, from, closer, items);
        items := items + Item(src, from, i);
        i, from := i + 1, i + 1;
      } else {
        i := i + 1;
      }
    }
    items := items + Item(src, from, i);
  }

  // --- Objects ------------------------------------------------------------------------------

  function Slice(src: string, a: nat, b: nat): string
    requires b <= |src|
  {
    if a <= b then src[a..b] else ""
  }

  /** The key that opens an item and where it ends, when there is one. */
  function KeyOf(src: string, i: nat, end: nat): (key: Option<(string, nat)>)
    requires end <= |src|
    ensures key.Some? ==> i < key.value.1
  {
    if i < end && (src[i] == '\'' || src[i] == '"') then
      var past := SkipString(src, i);
      Some((Slice(src, i + 1, past - 1), past))
    else if i >= |src| || !NameStart(src[i]) || RunEnd(src, i + 1, KeyChar) > end then None
    else Some((src[i..RunEnd(src, i + 1, KeyChar)], RunEnd(src, i + 1, KeyChar)))
  }

  /** One item of an object literal, added to the keys read so far; a later key wins. */
  function AddKey(src: string, item: Span, keys: map<string, Span>): map<string, Span>
    requires item.end <= |src|
  {
    match KeyOf(src, SpaceEnd(src, item.start, item.end), item.end)
    case None => keys
    case Some((key, past)) =>
      var i := SpaceEnd(src, past, item.end);
      if i < item.end && src[i] == ':' then keys[key := Span(i + 1, item.end)] else keys
  }

  function AddKeys(src: string, items: seq<Span>, keys: map<string, Span>): map<string, Span>
    requires InRange(items, |src|)
  {
    if items == [] then keys else AddKeys(src, items[1..], AddKey(src, items[0], keys))
  }

  function ObjectKeys(src: string, start: nat, end: nat): map<string, Span>
    requires end <= |src|
  {
    AddKeys(src, SplitList(src, start, end, '{', '}'), map[])
  }

  method ScanKey(src: string, item: Span, keys: map<string, Span>) returns (more: map<string, Span>)
    requires item.end <= |src|
    ensures more == AddKey(src, item, keys)
  {
    var i := ScanSpace(src, item.start, item.end);
    var key;
    if i < item.end && (src[i] == '\'' || src[i] == '"') {
      var past := ScanString(src, i);
      key, i := Slice(src, i + 1, past - 1), past;
    } else {
      if i >= |src| || !NameStart(src[i]) { return keys; }
      var past := ScanRun(src, i + 1, KeyChar);
      if past > item.end { return keys; }
      key, i := src[i..past], past;
    }
    i := ScanSpace(src, i, item.end);
    more := if i < item.end && src[i] == ':' then keys[key := Span(i + 1, item.end)] else keys;
  }

  method ScanObject(src: string, start: nat, end: nat) returns (keys: map<string, Span>)
    requires end <= |src|
    ensures keys == ObjectKeys(src, start, end)
  {
    var items := ScanList(src, start, end, '{', '}');
    keys := map[];
    var k := 0;
    while k < |items|
      invariant k <= |items| && InRange(items, |src|)
      invariant AddKeys(src, items[k..], keys) == AddKeys(src, items, map[])
    {
      assert items[k..][1..] == items[k + 1..];
      keys := ScanKey(src, items[k], keys);
      k := k + 1;
    }
  }

  // --- Strings ------------------------------------------------------------------------------

  function Escape(c: char): char {
    if c == 'n' then '\n' else if c == 't' then '\t' else if c == 'r' then '\r' else c
  }

  /** The character written at `i`, and how much of the source writes it. */
  function CharAt(src: string, i: nat, end: nat): (r: (char, nat))
    requires i < end <= |src|
    ensures i < r.1 <= end
  {
    if src[i] == '\\' && i + 1 < end then (Escape(src[i + 1]), i + 2) else (src[i], i + 1)
  }

  function Unescape(src: string, i: nat, end: nat): string
    requires i <= end <= |src|
    decreases end - i
  {
    if i == end then "" else
      var (c, next) := CharAt(src, i, end);
      [c] + Unescape(src, next, end)
  }

  /** The text of a string or template literal that is all there is in the span but whitespace. */
  function Literal(src: string, start: nat, end: nat): Option<string>
    requires end <= |src|
  {
    var i := SpaceEnd(src, start, end);
    if i > end then None
    else
      var j := SolidEnd(src, i, end);
      if j < i + 2 || !Quote(src[i]) || SkipString(src, i) != j then None
      else Some(Unescape(src, i + 1, j - 1))
  }

  method ReadLiteral(src: string, start: nat, end: nat) returns (text: Option<string>)
    requires end <= |src|
    ensures text == Literal(src, start, end)
  {
    var i := ScanSpace(src, start, end);
    var j := end;
    while j > i && IsSpace(src[j - 1])
      invariant j <= end && (i <= end ==> i <= j && SolidEnd(src, i, j) == SolidEnd(src, i, end))
    {
      j := j - 1;
    }
    if j < i + 2 || !Quote(src[i]) { return None; }
    var past := ScanString(src, i);
    if past != j { return None; }
    var out := Unescaped(src, i + 1, j - 1);
    text := Some(out);
  }

  lemma OneCharacter(src: string, i: nat, end: nat, out: string)
    requires i < end <= |src|
    ensures var (c, next) := CharAt(src, i, end);
      out + Unescape(src, i, end) == (out + [c]) + Unescape(src, next, end)
  {
    var (c, next) := CharAt(src, i, end);
    assert out + ([c] + Unescape(src, next, end)) == (out + [c]) + Unescape(src, next, end);
  }

  method Unescaped(src: string, start: nat, end: nat) returns (out: string)
    requires start <= end <= |src|
    ensures out == Unescape(src, start, end)
  {
    out := "";
    var k := start;
    while k < end
      invariant start <= k <= end
      invariant out + Unescape(src, k, end) == Unescape(src, start, end)
    {
      OneCharacter(src, k, end, out);
      if src[k] == '\\' && k + 1 < end {
        out := out + [Escape(src[k + 1])];
        k := k + 2;
      } else {
        out := out + [src[k]];
        k := k + 1;
      }
    }
  }
}
