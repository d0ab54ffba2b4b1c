/** Where names, tags and comments end, and expressions and attribute lists scanned back as printed. */
module MdxTags {
  import opened Options
  import opened Strings
  import opened MdxScan
  import opened MdxRoundTrip

  // --- Names, closing tags, comments ------------------------------------------------------------

  /** A tag's name is the longest there is. */
  lemma TagNameIff(src: string, i: nat, name: string)
    requires name != ""
    ensures TagName(src, i) == name <==>
      && i + |name| <= |src| && src[i..i + |name|] == name
      && NameStart(name[0]) && (forall k :: 0 < k < |name| ==> TagChar(name[k]))
      && (i + |name| < |src| ==> !TagChar(src[i + |name|]))
  {
    hide NameStart, TagChar;
    var end := i + |name|;
    if TagName(src, i) == name {
      RunAll(src, i + 1, TagChar);
      assert forall k :: 0 < k < |name| ==> name[k] == src[i + k];
    }
    if end <= |src| && src[i..end] == name && (forall k :: 0 < k < |name| ==> TagChar(name[k]))
       && (end < |src| ==> !TagChar(src[end])) {
      assert forall k :: i < k < end ==> src[k] == name[k - i];
      RunIs(src, i + 1, end, TagChar);
      assert src[i] == name[0];
    }
  }

  lemma CloseTagEndIs(src: string, i: nat)
    requires i < |src|
    ensures var end := CloseTagEnd(src, i);
      || (i < end && src[end - 1] == '>' && forall k :: i <= k < end - 1 ==> src[k] != '>')
      || (end == |src| && forall k :: i <= k < |src| ==> src[k] != '>')
  {
    RunAll(src, i, c => c != '>');
  }

  lemma {:induction false} ArrowIs(src: string, i: nat)
    requires i <= |src|
    ensures var at := ArrowAt(src, i);
      && (at < |src| ==> Three(src, at, '-', '-', '>'))
      && forall k :: i <= k < at ==> !Three(src, k, '-', '-', '>')
    decreases |src| - i
  {
    if i < |src| && !Three(src, i, '-', '-', '>') { ArrowIs(src, i + 1); }
  }

  lemma CommentEndIs(src: string, i: nat)
    requires i < |src| && Four(src, i, '<', '!', '-', '-')
    ensures var end := CommentEnd(src, i);
      || (&& i + 3 <= end && Three(src, end - 3, '-', '-', '>')
          && forall k :: i <= k < end - 3 ==> !Three(src, k, '-', '-', '>'))
      || (end == |src| && forall k :: i <= k < |src| ==> !Three(src, k, '-', '-', '>'))
  {
    ArrowIs(src, i);
  }

  lemma {:induction false} OneOfIff(name: string, names: seq<string>)
    ensures OneOf(name, names) <==> name in names
  {
    if names != [] { OneOfIff(name, names[1..]); }
  }

  // --- Expressions of any depth ------------------------------------------------------------------

  /** What braces hold: characters that mean nothing, strings, templates, and braces again. */
  datatype Part = Mark(c: char) | Lit(quote: char, chunks: seq<Chunk>) | Braces(parts: seq<Part>)

  /** A character of a string or template, or a substitution `${…}`. */
  datatype Chunk = One(code: Code) | Subst(parts: seq<Part>)

  function Write(parts: seq<Part>): string
    decreases parts
  {
    if parts == [] then "" else WritePart(parts[0]) + Write(parts[1..])
  }

  function WritePart(part: Part): (text: string)
    ensures text != ""
    decreases part
  {
    match part
    case Mark(c) => [c]
    case Lit(quote, chunks) => [quote] + WriteChunks(chunks) + [quote]
    case Braces(parts) => "{" + Write(parts) + "}"
  }

  function WriteChunks(chunks: seq<Chunk>): string
    decreases chunks
  {
    if chunks == [] then "" else WriteChunk(chunks[0]) + WriteChunks(chunks[1..])
  }

  function WriteChunk(chunk: Chunk): (text: string)
    ensures text != ""
    decreases chunk
  {
    match chunk
    case One(Plain(c)) => [c]
    case One(Escaped(c)) => ['\\', c]
    case Subst(parts) => "${" + Write(parts) + "}"
  }

  ghost predicate PartsOk(parts: seq<Part>)
    decreases parts
  {
    forall k :: 0 <= k < |parts| ==> PartOk(parts[k])
  }

  ghost predicate PartOk(part: Part)
    decreases part
  {
    match part
    case Mark(c) => !Quote(c) && c != '{' && c != '}'
    case Lit(quote, chunks) => Quote(quote) && ChunksOk(quote, chunks)
    case Braces(parts) => PartsOk(parts)
  }

  /** Substitutions are for templates, where a `$` before a brace cannot stand for itself. */
  ghost predicate ChunksOk(quote: char, chunks: seq<Chunk>)
    decreases chunks
  {
    chunks == [] ||
    (&& ChunksOk(quote, chunks[1..])
     && match chunks[0]
        case One(Escaped(_)) => true
        case One(Plain(c)) =>
          && c != quote && c != '\\'
          && (quote == '`' && c == '$' ==> |chunks| == 1 || chunks[1] != One(Plain('{')))
        case Subst(parts) => quote == '`' && PartsOk(parts))
  }

  lemma FirstAt(src: string, i: nat, text: string)
    requires At(src, i, text) && text != ""
    ensures i < |src| && src[i] == text[0]
    ensures |text| > 1 ==> i + 1 < |src| && src[i + 1] == text[1]
  {
    if |text| > 1 { assert At(src, i + 1, text[1..]); }
  }

  /** The parts of what stands between braces. */
  lemma InnerAt(src: string, i: nat, open: string, inner: string, close: string)
    requires At(src, i, open + inner + close) && |close| == 1
    ensures At(src, i, open) && At(src, i + |open|, inner)
    ensures i + |open| + |inner| < |src| && src[i + |open| + |inner|] == close[0]
  {
    AtSplit3(src, i, open, inner, close);
    FirstAt(src, i + |open| + |inner|, close);
  }

  lemma {:induction false} PartsSkip(src: string, i: nat, parts: seq<Part>, depth: nat)
    requires depth > 0 && PartsOk(parts) && At(src, i, Write(parts))
    ensures ExprEnd(src, i, depth) == ExprEnd(src, i + |Write(parts)|, depth)
    decreases parts
  {
    if parts != [] {
      hide PartOk, ExprEnd;
      AtSplit(src, i, WritePart(parts[0]), Write(parts[1..]));
      PartSkip(src, i, parts[0], depth);
      PartsSkip(src, i + |WritePart(parts[0])|, parts[1..], depth);
    }
  }

  lemma {:induction false} PartSkip(src: string, i: nat, part: Part, depth: nat)
    requires depth > 0 && PartOk(part) && At(src, i, WritePart(part))
    ensures ExprEnd(src, i, depth) == ExprEnd(src, i + |WritePart(part)|, depth)
    decreases part
  {
    FirstAt(src, i, WritePart(part));
    match part
    case Mark(c) =>
    case Lit(quote, chunks) =>
      InnerAt(src, i, [quote], WriteChunks(chunks), [quote]);
      ChunksSkip(src, i + 1, quote, chunks);
    case Braces(parts) =>
      InnerAt(src, i, "{", Write(parts), "}");
      PartsSkip(src, i + 1, parts, depth + 1);
  }

  lemma {:induction false} ChunksSkip(src: string, i: nat, quote: char, chunks: seq<Chunk>)
    requires Quote(quote) && ChunksOk(quote, chunks) && At(src, i, WriteChunks(chunks))
    requires i + |WriteChunks(chunks)| < |src| && src[i + |WriteChunks(chunks)|] == quote
    ensures StringEnd(src, quote, i) == i + |WriteChunks(chunks)| + 1
    decreases chunks
  {
    if chunks != [] {
      var rest := chunks[1..];
      AtSplit(src, i, WriteChunk(chunks[0]), WriteChunks(rest));
      ChunkSkip(src, i, quote, chunks);
      ChunksSkip(src, i + |WriteChunk(chunks[0])|, quote, rest);
    }
  }

  lemma {:induction false} ChunkSkip(src: string, i: nat, quote: char, chunks: seq<Chunk>)
    requires Quote(quote) && chunks != [] && ChunksOk(quote, chunks) && At(src, i, WriteChunk(chunks[0]))
    requires At(src, i + |WriteChunk(chunks[0])|, WriteChunks(chunks[1..]))
    requires chunks[1..] == [] ==> i + |WriteChunk(chunks[0])| < |src| && src[i + |WriteChunk(chunks[0])|] == quote
    ensures StringEnd(src, quote, i) == StringEnd(src, quote, i + |WriteChunk(chunks[0])|)
    decreases chunks[0]
  {
    FirstAt(src, i, WriteChunk(chunks[0]));
    match chunks[0]
    case One(Escaped(_)) =>
    case One(Plain(c)) =>
      if quote == '`' && c == '$' && |chunks| > 1 { NextChar(src, i + 1, quote, chunks[1..]); }
    case Subst(parts) =>
      InnerAt(src, i, "${", Write(parts), "}");
      PartsSkip(src, i + 2, parts, 1);
  }

  lemma NextChar(src: string, i: nat, quote: char, chunks: seq<Chunk>)
    requires chunks != [] && At(src, i, WriteChunks(chunks)) && chunks[0] != One(Plain('{'))
    ensures i < |src| && src[i] != '{'
  {
    AtSplit(src, i, WriteChunk(chunks[0]), WriteChunks(chunks[1..]));
    FirstAt(src, i, WriteChunk(chunks[0]));
  }

  /** An expression is skipped to its own closing brace, whatever its strings, templates and inner
      braces hold, to any depth, and whatever follows. */
  lemma ExpressionEnds(src: string, i: nat, parts: seq<Part>)
    requires PartsOk(parts) && At(src, i, "{" + Write(parts) + "}")
    ensures i < |src| && SkipExpression(src, i) == i + |Write(parts)| + 2
    ensures At(src, i + 1, Write(parts))
  {
    FirstAt(src, i, "{" + Write(parts) + "}");
    InnerAt(src, i, "{", Write(parts), "}");
    PartsSkip(src, i + 1, parts, 1);
  }

  /** A string or template ends at the first quote that closes it. */
  lemma StringEnds(src: string, i: nat, quote: char, chunks: seq<Chunk>)
    requires Quote(quote) && ChunksOk(quote, chunks) && At(src, i, [quote] + WriteChunks(chunks) + [quote])
    ensures i < |src| && SkipString(src, i) == i + |WriteChunks(chunks)| + 2
    ensures At(src, i + 1, WriteChunks(chunks))
  {
    FirstAt(src, i, [quote] + WriteChunks(chunks) + [quote]);
    InnerAt(src, i, [quote], WriteChunks(chunks), [quote]);
    ChunksSkip(src, i + 1, quote, chunks);
  }

  // --- Attribute lists -----------------------------------------------------------------------------

  datatype Value = QuotedText(quote: char, codes: seq<Code>) | Braced(parts: seq<Part>) | Unquoted(text: string)

  /** An attribute after some whitespace: a spread, a flag, or a name with a value. */
  datatype Item =
    | Spread(before: string, parts: seq<Part>)
    | Flag(before: string, name: string)
    | Valued(before: string, name: string, gap: string, past: string, value: Value)

  function Inner(value: Value): string {
    match value
    case QuotedText(_, codes) => Spell(codes)
    case Braced(parts) => Write(parts)
    case Unquoted(text) => text
  }

  function WriteValue(value: Value): string {
    match value
    case QuotedText(quote, codes) => [quote] + Spell(codes) + [quote]
    case Braced(parts) => "{" + Write(parts) + "}"
    case Unquoted(text) => text
  }

  function WriteItem(item: Item): string { item.before + Shown(item) }

  function Shown(item: Item): string {
    match item
    case Spread(_, parts) => "{" + Write(parts) + "}"
    case Flag(_, name) => name
    case Valued(_, name, gap, past, value) => name + (gap + "=" + (past + WriteValue(value)))
  }

  function WriteItems(items: seq<Item>): string {
    if items == [] then "" else WriteItem(items[0]) + WriteItems(items[1..])
  }

  ghost predicate ValueOk(value: Value) {
    match value
    case QuotedText(quote, codes) => (quote == '\'' || quote == '"') && CodesOk(quote, codes)
    case Braced(parts) => PartsOk(parts)
    case Unquoted(text) =>
      && text != "" && text[0] != '\'' && text[0] != '"' && text[0] != '{'
      && forall k :: 0 <= k < |text| ==> BareChar(text[k])
  }

  predicate AttrName(name: string) {
    name != "" && NameStart(name[0]) && forall k :: 0 < k < |name| ==> AttrChar(name[k])
  }

  ghost predicate ItemOk(item: Item) {
    && item.before != "" && Blank(item.before)
    && match item
       case Spread(_, parts) => PartsOk(parts)
       case Flag(_, name) => AttrName(name)
       case Valued(_, name, gap, past, value) => AttrName(name) && Blank(gap) && Blank(past) && ValueOk(value)
  }

  ghost predicate ItemsOk(items: seq<Item>) { forall k :: 0 <= k < |items| ==> ItemOk(items[k]) }

  predicate Names(item: Item, name: string) { !item.Spread? && item.name == name }

  predicate Named(items: seq<Item>, name: string) {
    items != [] && (Names(items[0], name) || Named(items[1..], name))
  }

  /** What is stored for an attribute: nothing for a flag, else the span of the value's inside. */
  predicate Stored(src: string, entry: Option<Attr>, item: Item) {
    match item
    case Spread(_, _) => false
    case Flag(_, _) => entry == None
    case Valued(_, _, _, _, value) =>
      && entry.Some? && entry.value.start <= entry.value.end <= |src|
      && src[entry.value.start..entry.value.end] == Inner(value)
      && entry.value.kind
          == match value case QuotedText(_, _) => Quoted case Braced(_) => Expression case Unquoted(_) => Bare
  }

  lemma {:induction false} RunOver(src: string, i: nat, text: string, p: char -> bool)
    requires At(src, i, text) && forall k :: 0 <= k < |text| ==> p(text[k])
    requires i + |text| == |src| || !p(src[i + |text|])
    ensures RunEnd(src, i, p) == i + |text|
    decreases |text|
  {
    if text != "" { RunOver(src, i + 1, text[1..], p); }
  }

  lemma {:induction false} RunOn(src: string, i: nat, text: string, p: char -> bool)
    requires At(src, i, text) && forall k :: 0 <= k < |text| ==> p(text[k])
    ensures RunEnd(src, i, p) == RunEnd(src, i + |text|, p)
    decreases |text|
  {
    if text != "" { RunOn(src, i + 1, text[1..], p); }
  }

  /** The loop starts a turn by passing over whitespace. */
  lemma SpacesSkip(src: string, i: nat, pad: string, attrs: Attrs)
    requires At(src, i, pad) && Blank(pad)
    ensures ParseAttrs(src, i, attrs) == ParseAttrs(src, i + |pad|, attrs)
  {
    if pad != "" {
      hide IsSpace;
      RunOn(src, i, pad, IsSpace);
      RunAll(src, i, IsSpace);
      if i + |pad| < |src| { assert StepAttr(src, i, attrs) == StepAttr(src, i + |pad|, attrs); }
    }
  }

  /** An attribute can end here: no name or bare value goes on, and no `=` follows. */
  predicate Boundary(src: string, i: nat) {
    && i < |src| && !AttrChar(src[i]) && !BareChar(src[i])
    && RunEnd(src, i, IsSpace) < |src| && src[RunEnd(src, i, IsSpace)] != '='
  }

  predicate ValueIs(src: string, r: (Attr, nat), end: nat, value: Value) {
    && r.1 == end && r.0.start <= r.0.end <= |src| && src[r.0.start..r.0.end] == Inner(value)
    && r.0.kind == match value case QuotedText(_, _) => Quoted case Braced(_) => Expression case Unquoted(_) => Bare
  }

  lemma QuotedRead(src: string, v: nat, value: Value)
    requires value.QuotedText? && At(src, v, WriteValue(value)) && ValueOk(value)
    ensures ValueIs(src, AttrValue(src, v), v + |WriteValue(value)|, value)
  {
    hide StringEnd, Spell, CodesOk, BareChar;
    var quote, codes := value.quote, value.codes;
    InnerAt(src, v, [quote], Spell(codes), [quote]);
    FirstAt(src, v, [quote]);
    assert RunEnd(src, v, IsSpace) == v;
    hide IsSpace;
    CodesSkip(src, v + 1, quote, codes);
    SliceAt(src, v + 1, Spell(codes));
  }

  lemma BracedRead(src: string, v: nat, value: Value)
    requires value.Braced? && At(src, v, WriteValue(value)) && ValueOk(value)
    ensures ValueIs(src, AttrValue(src, v), v + |WriteValue(value)|, value)
  {
    hide ExprEnd, Write, PartsOk, BareChar;
    FirstAt(src, v, WriteValue(value));
    assert RunEnd(src, v, IsSpace) == v;
    hide IsSpace;
    ExpressionEnds(src, v, value.parts);
    SliceAt(src, v + 1, Write(value.parts));
  }

  lemma UnquotedRead(src: string, v: nat, value: Value)
    requires value.Unquoted? && At(src, v, WriteValue(value)) && ValueOk(value)
    requires v + |value.text| < |src| && !BareChar(src[v + |value.text|])
    ensures ValueIs(src, AttrValue(src, v), v + |WriteValue(value)|, value)
  {
    FirstAt(src, v, value.text);
    assert BareChar(value.text[0]) && !IsSpace(src[v]);
    assert RunEnd(src, v, IsSpace) == v;
    hide IsSpace, BareChar;
    RunOver(src, v, value.text, BareChar);
    SliceAt(src, v, value.text);
  }

  lemma ValueSolid(value: Value)
    requires ValueOk(value)
    ensures WriteValue(value) != "" && !IsSpace(WriteValue(value)[0])
  {
    if value.Unquoted? { assert BareChar(value.text[0]); }
  }

  lemma SpacesBefore(src: string, i: nat, v: nat)
    requires i <= |src| && RunEnd(src, i, IsSpace) == v
    ensures AttrValue(src, i) == AttrValue(src, v)
  {
    hide IsSpace, BareChar, StringEnd, ExprEnd;
    assert RunEnd(src, v, IsSpace) == v;
  }

  lemma ValueReadAt(src: string, v: nat, value: Value)
    requires At(src, v, WriteValue(value)) && ValueOk(value) && Boundary(src, v + |WriteValue(value)|)
    ensures ValueIs(src, AttrValue(src, v), v + |WriteValue(value)|, value)
  {
    hide AttrValue, ValueOk, ValueIs, Boundary, WriteValue, At;
    BoundaryEnds(src, v + |WriteValue(value)|);
    match value
    case QuotedText(_, _) => QuotedRead(src, v, value);
    case Braced(_) => BracedRead(src, v, value);
    case Unquoted(_) =>
      UnquotedText(value);
      UnquotedRead(src, v, value);
  }

  lemma ValueRead(src: string, i: nat, past: string, value: Value)
    requires At(src, i, past + WriteValue(value)) && Blank(past) && ValueOk(value)
    requires Boundary(src, i + |past| + |WriteValue(value)|)
    ensures ValueIs(src, AttrValue(src, i), i + |past| + |WriteValue(value)|, value)
  {
    hide AttrValue, ValueOk, ValueIs, IsSpace, WriteValue, Boundary, RunEnd, At;
    var v := i + |past|;
    AtSplit(src, i, past, WriteValue(value));
    ValueSolid(value);
    FirstAt(src, v, WriteValue(value));
    RunOver(src, i, past, IsSpace);
    SpacesBefore(src, i, v);
    ValueReadAt(src, v, value);
  }

  lemma BoundaryEnds(src: string, i: nat)
    requires Boundary(src, i)
    ensures i < |src| && !BareChar(src[i])
  {
  }

  lemma UnquotedText(value: Value)
    requires value.Unquoted?
    ensures WriteValue(value) == value.text
  {
  }

  lemma NameAt(src: string, i: nat, name: string)
    requires At(src, i, name) && AttrName(name) && i + |name| < |src| && !AttrChar(src[i + |name|])
    ensures i < |src| && NameStart(src[i]) && RunEnd(src, i + 1, AttrChar) == i + |name| && src[i..i + |name|] == name
  {
    hide NameStart, AttrChar;
    FirstAt(src, i, name);
    RunOver(src, i + 1, name[1..], AttrChar);
    SliceAt(src, i, name);
  }

  lemma FlagRead(src: string, i: nat, name: string, attrs: Attrs)
    requires At(src, i, name) && AttrName(name) && Boundary(src, i + |name|)
    ensures ParseAttrs(src, i, attrs) == ParseAttrs(src, i + |name|, attrs[name := None])
  {
    hide AttrChar, BareChar;
    NameAt(src, i, name);
    NameStartsAttr(src, i, attrs);
    var eq := RunEnd(src, i + |name|, IsSpace);
    RunsToSpaces(src, i + |name|, attrs[name := None]);
    assert NamedAttr(src, i, attrs) == NextAttr(attrs[name := None], eq);
  }

  lemma NameStartsAttr(src: string, i: nat, attrs: Attrs)
    requires i < |src| && NameStart(src[i])
    ensures StepAttr(src, i, attrs) == NamedAttr(src, i, attrs)
  {
    hide NamedAttr;
    assert RunEnd(src, i, IsSpace) == i;
  }

  lemma RunsToSpaces(src: string, i: nat, attrs: Attrs)
    requires i < |src|
    ensures ParseAttrs(src, i, attrs) == ParseAttrs(src, RunEnd(src, i, IsSpace), attrs)
  {
    var q := RunEnd(src, i, IsSpace);
    hide IsSpace;
    RunAll(src, i, IsSpace);
    if q < |src| { assert StepAttr(src, i, attrs) == StepAttr(src, q, attrs); }
  }

  lemma NamedValue(src: string, i: nat, nameEnd: nat, eq: nat, attrs: Attrs)
    requires i < |src| && NameStart(src[i]) && RunEnd(src, i + 1, AttrChar) == nameEnd
    requires RunEnd(src, nameEnd, IsSpace) == eq < |src| && src[eq] == '='
    ensures var (attr, end) := AttrValue(src, eq + 1);
      ParseAttrs(src, i, attrs) == ParseAttrs(src, end, attrs[src[i..nameEnd] := Some(attr)])
  {
    hide NameStart, AttrChar, AttrValue;
    NameStartsAttr(src, i, attrs);
    hide IsSpace, StepAttr;
  }

  lemma ValuedRead(src: string, i: nat, item: Item, attrs: Attrs) returns (attr: Attr)
    requires item.Valued? && ItemOk(item) && At(src, i, Shown(item)) && Boundary(src, i + |Shown(item)|)
    ensures Stored(src, Some(attr), item)
    ensures ParseAttrs(src, i, attrs) == ParseAttrs(src, i + |Shown(item)|, attrs[item.name := Some(attr)])
  {
    hide AttrChar, NameStart, BareChar, WriteValue, ValueOk, Inner, AttrName, IsSpace, ParseAttrs, AttrValue, Boundary;
    var name, gap, past := item.name, item.gap, item.past;
    var rest := past + WriteValue(item.value);
    AtSplit(src, i, name, gap + "=" + rest);
    AtSplit3(src, i + |name|, gap, "=", rest);
    var eq := i + |name| + |gap|;
    FirstAt(src, eq, "=");
    AfterName(src, i + |name|, gap);
    EqualsIsNoSpace();
    RunOver(src, i + |name|, gap, IsSpace);
    NameAt(src, i, name);
    NamedValue(src, i, i + |name|, eq, attrs);
    ValueRead(src, eq + 1, past, item.value);
    attr := AttrValue(src, eq + 1).0;
  }

  lemma EqualsIsNoSpace()
    ensures !IsSpace('=')
  {
  }

  /** Whitespace and `=` are no part of a name. */
  lemma AfterName(src: string, i: nat, gap: string)
    requires At(src, i, gap) && Blank(gap) && i + |gap| < |src| && src[i + |gap|] == '='
    ensures !AttrChar(src[i])
  {
    if gap != "" { FirstAt(src, i, gap); }
  }

  lemma ItemRead(src: string, i: nat, item: Item, attrs: Attrs) returns (more: Attrs)
    requires At(src, i, WriteItem(item)) && ItemOk(item) && Boundary(src, i + |WriteItem(item)|)
    ensures ParseAttrs(src, i, attrs) == ParseAttrs(src, i + |WriteItem(item)|, more)
    ensures if item.Spread? then more == attrs
            else item.name in more && Stored(src, more[item.name], item) && more == attrs[item.name := more[item.name]]
  {
    hide ParseAttrs, Boundary, Stored, PartsOk, AttrName, WriteValue, IsSpace;
    var j := i + |item.before|;
    AtSplit(src, i, item.before, Shown(item));
    SpacesSkip(src, i, item.before, attrs);
    match item
    case Spread(_, parts) =>
      SpreadRead(src, j, parts, attrs);
      more := attrs;
    case Flag(_, name) =>
      FlagRead(src, j, name, attrs);
      more := attrs[name := None];
      FlagStored(src, item);
    case Valued(_, name, _, _, _) =>
      var attr := ValuedRead(src, j, item, attrs);
      more := attrs[name := Some(attr)];
  }

  lemma FlagStored(src: string, item: Item)
    requires item.Flag?
    ensures Stored(src, None, item)
  {
  }

  lemma SpreadRead(src: string, i: nat, parts: seq<Part>, attrs: Attrs)
    requires At(src, i, "{" + Write(parts) + "}") && PartsOk(parts)
    ensures ParseAttrs(src, i, attrs) == ParseAttrs(src, i + |"{" + Write(parts) + "}"|, attrs)
  {
    hide ExprEnd, PartsOk, Write;
    ExpressionEnds(src, i, parts);
    FirstAt(src, i, "{" + Write(parts) + "}");
    assert RunEnd(src, i, IsSpace) == i;
  }

  function Closing(selfClosing: bool): string { if selfClosing then "/>" else ">" }

  lemma ShownSolid(item: Item)
    requires ItemOk(item)
    ensures Shown(item) != "" && !IsSpace(Shown(item)[0]) && Shown(item)[0] != '='
  {
    hide PartsOk, ValueOk, WriteValue;
  }

  lemma ClosingSolid(selfClosing: bool)
    ensures var c := Closing(selfClosing)[0]; !IsSpace(c) && (c == '>' || c == '/')
  {
  }

  lemma RestBoundary(src: string, i: nat, items: seq<Item>, tail: string, selfClosing: bool)
    requires At(src, i, WriteItems(items) + (tail + Closing(selfClosing))) && ItemsOk(items) && Blank(tail)
    ensures Boundary(src, i)
  {
    hide Boundary, Shown, IsSpace;
    var rest := tail + Closing(selfClosing);
    if items == [] {
      assert WriteItems(items) + rest == rest;
      ClosingSolid(selfClosing);
      PadBoundary(src, i, tail, Closing(selfClosing));
    } else {
      var more := WriteItems(items[1..]) + rest;
      assert WriteItems(items) + rest == WriteItem(items[0]) + more;
      AtSplit(src, i, WriteItem(items[0]), more);
      ShownSolid(items[0]);
      PadBoundary(src, i, items[0].before, Shown(items[0]));
    }
  }

  lemma PadBoundary(src: string, i: nat, pad: string, shown: string)
    requires At(src, i, pad + shown) && Blank(pad) && shown != "" && !IsSpace(shown[0]) && shown[0] != '='
    requires pad == "" ==> shown[0] == '>' || shown[0] == '/'
    ensures Boundary(src, i)
  {
    AtSplit(src, i, pad, shown);
    FirstAt(src, i + |pad|, shown);
    if pad != "" { FirstAt(src, i, pad); }
    EndsName(src[i]);
    hide IsSpace, AttrChar, BareChar;
    RunOver(src, i, pad, IsSpace);
  }

  lemma EndsName(c: char)
    requires IsSpace(c) || c == '>' || c == '/'
    ensures !AttrChar(c) && !BareChar(c)
  {
  }

  lemma Closes(src: string, j: nat, selfClosing: bool, attrs: Attrs)
    requires j < |src| && (if selfClosing then Two(src, j, '/', '>') else src[j] == '>')
    ensures ParseAttrs(src, j, attrs) == Tag(attrs, selfClosing, j + |Closing(selfClosing)|)
  {
    hide NamedAttr, ExprEnd, NameStart;
    assert RunEnd(src, j, IsSpace) == j;
    hide IsSpace;
  }

  lemma ClosingRead(src: string, i: nat, tail: string, selfClosing: bool, attrs: Attrs)
    requires At(src, i, tail + Closing(selfClosing)) && Blank(tail)
    ensures ParseAttrs(src, i, attrs) == Tag(attrs, selfClosing, i + |tail| + |Closing(selfClosing)|)
  {
    hide ParseAttrs, IsSpace;
    var j := i + |tail|;
    AtSplit(src, i, tail, Closing(selfClosing));
    SpacesSkip(src, i, tail, attrs);
    FirstAt(src, j, Closing(selfClosing));
    Closes(src, j, selfClosing, attrs);
  }

  /** Each name stands for the last item that bears it, and no other name gets in. */
  ghost predicate Read(src: string, items: seq<Item>, before: Attrs, after: Attrs) {
    && (forall name :: !Named(items, name) ==>
          (name in after <==> name in before) && (name in after ==> after[name] == before[name]))
    && forall k :: 0 <= k < |items| && !items[k].Spread? && !Named(items[k + 1..], items[k].name) ==>
         items[k].name in after && Stored(src, after[items[k].name], items[k])
  }

  lemma ReadFirst(src: string, items: seq<Item>, before: Attrs, more: Attrs, after: Attrs)
    requires items != [] && Read(src, items[1..], more, after)
    requires items[0].Spread? ==> more == before
    requires !items[0].Spread? ==>
      && items[0].name in more && Stored(src, more[items[0].name], items[0])
      && more == before[items[0].name := more[items[0].name]]
    ensures Read(src, items, before, after)
  {
    hide Stored;
    forall k | 0 <= k < |items| && !items[k].Spread? && !Named(items[k + 1..], items[k].name)
      ensures items[k].name in after && Stored(src, after[items[k].name], items[k])
    {
      if k > 0 {
        assert items[1..][k - 1] == items[k] && items[1..][k..] == items[k + 1..];
      }
    }
  }

  lemma {:induction false} ItemsRead(src: string, i: nat, items: seq<Item>, tail: string, selfClosing: bool,
                                     attrs: Attrs)
    requires At(src, i, WriteItems(items) + (tail + Closing(selfClosing))) && ItemsOk(items) && Blank(tail)
    ensures var tag := ParseAttrs(src, i, attrs);
      && tag.selfClosing == selfClosing && tag.end == i + |WriteItems(items) + (tail + Closing(selfClosing))|
      && Read(src, items, attrs, tag.attrs)
    decreases items
  {
    hide ParseAttrs, Boundary, Stored, ItemOk, WriteItem;
    var rest := tail + Closing(selfClosing);
    if items == [] {
      assert WriteItems(items) + rest == rest;
      ClosingRead(src, i, tail, selfClosing, attrs);
    } else {
      var more := WriteItems(items[1..]) + rest;
      assert WriteItems(items) + rest == WriteItem(items[0]) + more;
      AtSplit(src, i, WriteItem(items[0]), more);
      var j := i + |WriteItem(items[0])|;
      RestBoundary(src, j, items[1..], tail, selfClosing);
      var attrs' := ItemRead(src, i, items[0], attrs);
      ItemsRead(src, j, items[1..], tail, selfClosing, attrs');
      ReadFirst(src, items, attrs, attrs', ParseAttrs(src, j, attrs').attrs);
    }
  }

  /** A tag's attributes, printed anywhere, are read back: how it closes, where it ends, which names
      there are, and under each what its last bearer says, cut out of the source to the character. */
  lemma AttrsRoundTrip(pre: string, items: seq<Item>, tail: string, selfClosing: bool, post: string)
    requires ItemsOk(items) && Blank(tail)
    ensures var src := pre + (WriteItems(items) + (tail + Closing(selfClosing))) + post;
      var tag := ParseAttrs(src, |pre|, map[]);
      && tag.selfClosing == selfClosing && tag.end == |src| - |post|
      && Read(src, items, map[], tag.attrs)
  {
    hide At, ParseAttrs, WriteItems, ItemsOk, Read;
    StandsIn(pre, WriteItems(items) + (tail + Closing(selfClosing)), post);
    var src := pre + (WriteItems(items) + (tail + Closing(selfClosing))) + post;
    ItemsRead(src, |pre|, items, tail, selfClosing, map[]);
  }
}
