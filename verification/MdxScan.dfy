/** The JSX scanner and parser: strings, `{…}` expressions, attributes, and the node tree. */
module MdxScan {
  import opened Options
  import opened Strings

  predicate Quote(c: char) { c == '\'' || c == '"' || c == '`' }

  // --- Strings and expressions -------------------------------------------------------------

  /** Just past a literal, scanning from inside it. A backslash takes the next character with
      it; in a template literal a substitution is skipped whole. Unterminated: the end. */
  function StringEnd(src: string, quote: char, i: nat): (end: nat)
    ensures end <= |src|
    ensures i <= |src| ==> i <= end
    decreases if i < |src| then |src| - i else 0
  {
    if i >= |src| then |src|
    else if src[i] == '\\' then StringEnd(src, quote, i + 2)
    else if quote == '`' && Two(src, i, '$', '{') then StringEnd(src, quote, ExprEnd(src, i + 1, 0))
    else if src[i] == quote then i + 1
    else StringEnd(src, quote, i + 1)
  }

  /** Just past the brace that closes a nesting of `depth`. */
  function ExprEnd(src: string, i: nat, depth: int): (end: nat)
    ensures end <= |src|
    ensures i < |src| ==> i < end
    decreases if i < |src| then |src| - i else 0
  {
    if i >= |src| then |src|
    else if Quote(src[i]) then ExprEnd(src, StringEnd(src, src[i], i + 1), depth)
    else if src[i] == '{' then ExprEnd(src, i + 1, depth + 1)
    else if src[i] == '}' then if depth == 1 then i + 1 else ExprEnd(src, i + 1, depth - 1)
    else ExprEnd(src, i + 1, depth)
  }

  function SkipString(src: string, i: nat): (end: nat)
    requires i < |src|
    ensures i < end <= |src|
  {
    StringEnd(src, src[i], i + 1)
  }

  function SkipExpression(src: string, i: nat): (end: nat)
    requires i < |src|
    ensures i < end <= |src|
  {
    ExprEnd(src, i, 0)
  }

  method ScanString(src: string, i: nat) returns (end: nat)
    requires i < |src|
    ensures end == SkipString(src, i)
    decreases |src| - i, 0
  {
    var quote := src[i];
    var j := i + 1;
    while j < |src|
      invariant i < j
      invariant StringEnd(src, quote, j) == SkipString(src, i)
      decreases |src| - j
    {
      if src[j] == '\\' {
        j := j + 2;
      } else if quote == '`' && Two(src, j, '$', '{') {
        j := ScanExpression(src, j + 1);
      } else if src[j] == quote {
        return j + 1;
      } else {
        j := j + 1;
      }
    }
    end := |src|;
  }

  method ScanExpression(src: string, i: nat) returns (end: nat)
    requires i < |src|
    ensures end == SkipExpression(src, i)
    decreases |src| - i, 1
  {
    var depth := 0;
    var j := i;
    while j < |src|
      invariant i <= j
      invariant ExprEnd(src, j, depth) == SkipExpression(src, i)
      decreases |src| - j
    {
      if Quote(src[j]) {
        j := ScanString(src, j);
      } else {
        if src[j] == '{' {
          depth := depth + 1;
        } else if src[j] == '}' {
          depth := depth - 1;
          if depth == 0 { return j + 1; }
        }
        j := j + 1;
      }
    }
    end := |src|;
  }

  method ScanRun(src: string, i: nat, p: char -> bool) returns (end: nat)
    requires i <= |src|
    ensures end == RunEnd(src, i, p)
  {
    end := i;
    while end < |src| && p(src[end])
      invariant i <= end <= |src| && RunEnd(src, end, p) == RunEnd(src, i, p)
    {
      end := end + 1;
    }
  }

  // --- Attributes -------------------------------------------------------------------------------

  predicate NameStart(c: char) { 'A' <= c <= 'Z' || 'a' <= c <= 'z' || c == '_' || c == '$' }

  predicate KeyChar(c: char) { NameStart(c) || '0' <= c <= '9' }

  predicate TagChar(c: char) { KeyChar(c) || c == '.' || c == '-' }

  predicate AttrChar(c: char) { TagChar(c) || c == ':' }

  predicate BareChar(c: char) { !IsSpace(c) && c != '>' && c != '/' }

  datatype AttrKind = Quoted | Expression | Bare

  /** A value's span, without its delimiters. An unterminated value at the very end of the source
      leaves `end` one before `start`. */
  datatype Attr = Attr(start: nat, end: int, kind: AttrKind)

  type Attrs = map<string, Option<Attr>>

  datatype Tag = Tag(attrs: Attrs, selfClosing: bool, end: nat)

  /** An attribute's value, scanning just past its `=`, and where it ends. */
  function AttrValue(src: string, i: nat): (r: (Attr, nat))
    requires i <= |src|
    ensures i <= r.1 <= |src|
    ensures i <= r.0.start && r.0.start <= r.0.end + 1 && r.0.end <= r.1
  {
    var v := RunEnd(src, i, IsSpace);
    if v < |src| && (src[v] == '\'' || src[v] == '"') then
      (Attr(v + 1, SkipString(src, v) - 1, Quoted), SkipString(src, v))
    else if v < |src| && src[v] == '{' then
      (Attr(v + 1, SkipExpression(src, v) - 1, Expression), SkipExpression(src, v))
    else
      (Attr(v, RunEnd(src, v, BareChar), Bare), RunEnd(src, v, BareChar))
  }

  /** One turn of the attribute loop: the tag is over, or scanning goes on further along. */
  datatype AttrStep = TagOver(tag: Tag) | NextAttr(attrs: Attrs, i: nat)

  function NamedAttr(src: string, i: nat, attrs: Attrs): (step: AttrStep)
    requires i < |src|
    ensures step.NextAttr? && i < step.i <= |src|
  {
    var nameEnd := RunEnd(src, i + 1, AttrChar);
    var name := src[i..nameEnd];
    var eq := RunEnd(src, nameEnd, IsSpace);
    if eq >= |src| || src[eq] != '=' then NextAttr(attrs[name := None], eq)
    else
      var (attr, end) := AttrValue(src, eq + 1);
      NextAttr(attrs[name := Some(attr)], end)
  }

  function StepAttr(src: string, i: nat, attrs: Attrs): (step: AttrStep)
    requires i < |src|
    ensures match step case TagOver(tag) => i < tag.end <= |src| case NextAttr(_, j) => i < j <= |src|
  {
    var j := RunEnd(src, i, IsSpace);
    if j >= |src| then TagOver(Tag(attrs, false, |src|))
    else if Two(src, j, '/', '>') then TagOver(Tag(attrs, true, j + 2))
    else if src[j] == '>' then TagOver(Tag(attrs, false, j + 1))
    else if src[j] == '{' then NextAttr(attrs, SkipExpression(src, j))
    else if !NameStart(src[j]) then NextAttr(attrs, j + 1)
    else NamedAttr(src, j, attrs)
  }

  function ParseAttrs(src: string, i: nat, attrs: Attrs): (tag: Tag)
    requires i <= |src|
    ensures i <= tag.end <= |src|
    decreases |src| - i
  {
    if i == |src| then Tag(attrs, false, |src|)
    else
      match StepAttr(src, i, attrs)
      case TagOver(tag) => tag
      case NextAttr(more, j) => ParseAttrs(src, j, more)
  }

  method ScanAttrValue(src: string, i: nat) returns (attr: Attr, end: nat)
    requires i <= |src|
    ensures (attr, end) == AttrValue(src, i)
  {
    var v := ScanRun(src, i, IsSpace);
    if v < |src| && (src[v] == '\'' || src[v] == '"') {
      end := ScanString(src, v);
      attr := Attr(v + 1, end - 1, Quoted);
    } else if v < |src| && src[v] == '{' {
      end := ScanExpression(src, v);
      attr := Attr(v + 1, end - 1, Expression);
    } else {
      end := ScanRun(src, v, BareChar);
      attr := Attr(v, end, Bare);
    }
  }

  method ScanNamedAttr(src: string, i: nat, attrs: Attrs) returns (step: AttrStep)
    requires i < |src|
    ensures step == NamedAttr(src, i, attrs)
  {
    var nameEnd := ScanRun(src, i + 1, AttrChar);
    var name := src[i..nameEnd];
    var j := ScanRun(src, nameEnd, IsSpace);
    if j >= |src| || src[j] != '=' { return NextAttr(attrs[name := None], j); }
    var attr, end := ScanAttrValue(src, j + 1);
    step := NextAttr(attrs[name := Some(attr)], end);
  }

  method ScanAttr(src: string, i: nat, attrs: Attrs) returns (step: AttrStep)
    requires i < |src|
    ensures step == StepAttr(src, i, attrs)
  {
    var j := ScanRun(src, i, IsSpace);
    if j >= |src| { return TagOver(Tag(attrs, false, |src|)); }
    if Two(src, j, '/', '>') { return TagOver(Tag(attrs, true, j + 2)); }
    if src[j] == '>' { return TagOver(Tag(attrs, false, j + 1)); }
    if src[j] == '{' {
      j := ScanExpression(src, j);
      return NextAttr(attrs, j);
    }
    if !NameStart(src[j]) { return NextAttr(attrs, j + 1); }
    step := ScanNamedAttr(src, j, attrs);
  }

  method ScanAttrs(src: string, i: nat) returns (tag: Tag)
    requires i <= |src|
    ensures tag == ParseAttrs(src, i, map[])
  {
    var attrs: Attrs := map[];
    var j := i;
    while j < |src|
      invariant i <= j <= |src|
      invariant ParseAttrs(src, j, attrs) == ParseAttrs(src, i, map[])
      decreases |src| - j
    {
      var step := ScanAttr(src, j, attrs);
      match step
      case TagOver(over) => return over;
      case NextAttr(more, next) => attrs, j := more, next;
    }
    tag := Tag(attrs, false, |src|);
  }

  // --- The node tree ------------------------------------------------------------------------------

  datatype Node =
    | Text(start: nat, end: nat)
    | Expr(start: nat, end: nat)
    | Element(name: string, attrs: Attrs, children: seq<Node>, start: nat, end: nat)

  const VOID := ["area", "base", "br", "col", "embed", "hr", "img", "input", "link", "meta", "source", "track", "wbr"]

  predicate OneOf(name: string, names: seq<string>) {
    names != [] && (name == names[0] || OneOf(name, names[1..]))
  }

  /** HTML elements that never carry a closing tag; case matters. */
  predicate IsVoid(name: string) { OneOf(name, VOID) }

  /** `name` as the tag-name pattern matches it at `i`, or nothing. */
  function TagName(src: string, i: nat): (name: string)
    ensures i + |name| <= |src| || name == ""
    ensures name != "" ==> i < |src| && NameStart(src[i]) && name == src[i..i + |name|]
    ensures name == "" ==> i >= |src| || !NameStart(src[i])
  {
    if i < |src| && NameStart(src[i]) then src[i..RunEnd(src, i + 1, TagChar)] else ""
  }

  /** src.find("-->", i), or the length when there is none. */
  function ArrowAt(src: string, i: nat): (at: nat)
    requires i <= |src|
    ensures i <= at <= |src|
    ensures at < |src| ==> at + 3 <= |src|
    decreases |src| - i
  {
    if i == |src| || Three(src, i, '-', '-', '>') then i else ArrowAt(src, i + 1)
  }

  function CommentEnd(src: string, i: nat): (end: nat)
    requires i < |src| && Four(src, i, '<', '!', '-', '-')
    ensures i < end <= |src|
  {
    var close := ArrowAt(src, i);
    if close == |src| then |src| else close + 3
  }

  function CloseTagEnd(src: string, i: nat): (end: nat)
    requires i < |src|
    ensures i < end <= |src|
  {
    var close := RunEnd(src, i, c => c != '>');
    if close == |src| then |src| else close + 1
  }

  function Flush(from: nat, to: nat): seq<Node> {
    if to > from then [Text(from, to)] else []
  }

  datatype Parsed = Parsed(nodes: seq<Node>, end: nat)

  function Prepend(nodes: seq<Node>, rest: Parsed): Parsed {
    Parsed(nodes + rest.nodes, rest.end)
  }

  /** One turn of the child loop: the nodes it adds, and where it returns or goes on. */
  datatype NodeStep =
    | Close(nodes: seq<Node>, end: nat)
    | Next(nodes: seq<Node>, from: nat, i: nat)

  function StepNode(src: string, from: nat, i: nat, stop: Option<string>): (step: NodeStep)
    requires from <= i < |src|
    ensures match step case Close(_, end) => i < end <= |src| case Next(_, f, j) => f <= j && i < j <= |src|
    decreases |src| - i, 1
  {
    if src[i] == '{' then
      var end := SkipExpression(src, i);
      Next(Flush(from, i) + [Expr(i, end)], end, end)
    else if src[i] != '<' then Next([], from, i + 1)
    else if Four(src, i, '<', '!', '-', '-') then Next(Flush(from, i), CommentEnd(src, i), CommentEnd(src, i))
    else if Two(src, i, '<', '/') then
      var name, end := TagName(src, i + 2), CloseTagEnd(src, i);
      if stop.Some? && (name == stop.value || name == "") then Close(Flush(from, i), end)
      else Next(Flush(from, i), end, end)
    else if Two(src, i, '<', '>') then
      var body := ParseChildren(src, i + 2, Some(""));
      Next(Flush(from, i) + [Element("", map[], body.nodes, i, body.end)], body.end, body.end)
    else
      var name := TagName(src, i + 1);
      if name == "" then Next([], from, i + 1)
      else
        var element := ParseElement(src, i, name);
        Next(Flush(from, i) + [element], element.end, element.end)
  }

  function ParseElement(src: string, i: nat, name: string): (element: Node)
    requires i + 1 + |name| <= |src|
    ensures element.Element? && element.start == i < element.end <= |src|
    decreases |src| - i, 0
  {
    var tag := ParseAttrs(src, i + 1 + |name|, map[]);
    if tag.selfClosing || IsVoid(name) then Element(name, tag.attrs, [], i, tag.end)
    else
      var body := ParseChildren(src, tag.end, Some(name));
      Element(name, tag.attrs, body.nodes, i, body.end)
  }

  /** _parse_children from position `i`, with the text run since `from` not yet flushed. */
  function ParseFrom(src: string, from: nat, i: nat, stop: Option<string>): (r: Parsed)
    requires from <= i <= |src|
    ensures i <= r.end <= |src|
    decreases |src| - i, 2
  {
    if i == |src| then Parsed(Flush(from, i), i)
    else
      match StepNode(src, from, i, stop)
      case Close(nodes, end) => Parsed(nodes, end)
      case Next(nodes, f, j) => Prepend(nodes, ParseFrom(src, f, j, stop))
  }

  function ParseChildren(src: string, i: nat, stop: Option<string>): (r: Parsed)
    requires i <= |src|
    ensures i <= r.end <= |src|
    decreases |src| - i, 3
  {
    ParseFrom(src, i, i, stop)
  }

  method ScanNode(src: string, from: nat, i: nat, stop: Option<string>) returns (step: NodeStep)
    requires from <= i < |src|
    ensures step == StepNode(src, from, i, stop)
    decreases |src| - i, 1
  {
    var end;
    if src[i] == '{' {
      end := ScanExpression(src, i);
      return Next(Flush(from, i) + [Expr(i, end)], end, end);
    }
    if src[i] != '<' { return Next([], from, i + 1); }
    if Four(src, i, '<', '!', '-', '-') {
      return Next(Flush(from, i), CommentEnd(src, i), CommentEnd(src, i));
    }
    if Two(src, i, '<', '/') {
      var closing := TagName(src, i + 2);
      end := CloseTagEnd(src, i);
      if stop.Some? && (closing == stop.value || closing == "") { return Close(Flush(from, i), end); }
      return Next(Flush(from, i), end, end);
    }
    var children;
    if Two(src, i, '<', '>') {
      children, end := ScanChildren(src, i + 2, Some(""));
      return Next(Flush(from, i) + [Element("", map[], children, i, end)], end, end);
    }
    var name := TagName(src, i + 1);
    if name == "" { return Next([], from, i + 1); }
    var element := ScanElement(src, i, name);
    step := Next(Flush(from, i) + [element], element.end, element.end);
  }

  method ScanElement(src: string, i: nat, name: string) returns (element: Node)
    requires i + 1 + |name| <= |src|
    ensures element == ParseElement(src, i, name)
    decreases |src| - i, 0
  {
    var tag := ScanAttrs(src, i + 1 + |name|);
    if tag.selfClosing || IsVoid(name) { return Element(name, tag.attrs, [], i, tag.end); }
    var children, end := ScanChildren(src, tag.end, Some(name));
    element := Element(name, tag.attrs, children, i, end);
  }

  lemma ParseStep(src: string, from: nat, i: nat, stop: Option<string>, nodes: seq<Node>)
    requires from <= i < |src|
    ensures match StepNode(src, from, i, stop)
      case Close(more, end) => Prepend(nodes, ParseFrom(src, from, i, stop)) == Parsed(nodes + more, end)
      case Next(more, f, j) =>
        Prepend(nodes, ParseFrom(src, from, i, stop)) == Prepend(nodes + more, ParseFrom(src, f, j, stop))
  {
    match StepNode(src, from, i, stop)
    case Close(more, end) =>
    case Next(more, f, j) =>
      var rest := ParseFrom(src, f, j, stop).nodes;
      assert nodes + (more + rest) == (nodes + more) + rest;
  }

  method ScanChildren(src: string, start: nat, stop: Option<string>) returns (nodes: seq<Node>, end: nat)
    requires start <= |src|
    ensures Parsed(nodes, end) == ParseChildren(src, start, stop)
    decreases |src| - start, 2
  {
    nodes := [];
    var from: nat, i: nat := start, start;
    while i < |src|
      invariant start <= i && from <= i <= |src|
      invariant Prepend(nodes, ParseFrom(src, from, i, stop)) == ParseChildren(src, start, stop)
      decreases |src| - i
    {
      var step := ScanNode(src, from, i, stop);
      ParseStep(src, from, i, stop, nodes);
      nodes := nodes + step.nodes;
      match step
      case Close(_, over) => return nodes, over;
      case Next(_, f, j) => from, i := f, j;
    }
    nodes := nodes + Flush(from, |src|);
    end := |src|;
  }
}
