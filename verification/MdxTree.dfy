/** What the node tree says about the source: it tiles it. */
module MdxTree {
  import opened Options
  import opened Strings
  import opened MdxScan

  /** A `<` at `i` that the parser takes for markup. */
  predicate Opens(src: string, i: nat)
    requires i < |src| && src[i] == '<'
  {
    Four(src, i, '<', '!', '-', '-') || Two(src, i, '<', '/') || Two(src, i, '<', '>') || TagName(src, i + 1) != ""
  }

  /** Prose: no expression opens in it, and none of its `<` is markup. */
  predicate PlainText(src: string, a: nat, b: nat) {
    b <= |src| && forall k :: a <= k < b ==> src[k] != '{' && (src[k] == '<' ==> !Opens(src, k))
  }

  /** A comment or a closing tag that starts at `i`. */
  predicate Piece(src: string, i: nat) {
    Four(src, i, '<', '!', '-', '-') || Two(src, i, '<', '/')
  }

  function PieceEnd(src: string, i: nat): (end: nat)
    requires Piece(src, i)
    ensures i < end <= |src|
  {
    if Four(src, i, '<', '!', '-', '-') then CommentEnd(src, i) else CloseTagEnd(src, i)
  }

  /** A closing tag at `i` that closes what is named `stop`: its own, or one without a name. */
  predicate Closes(src: string, i: nat, stop: Option<string>) {
    Two(src, i, '<', '/') && stop.Some? && (TagName(src, i + 2) == stop.value || TagName(src, i + 2) == "")
  }

  /** `src[a..b]` is nothing but comments and closing tags, none of which closes `stop`. */
  predicate Strays(src: string, a: nat, b: nat, stop: Option<string>)
    decreases if a < b then b - a else 0
  {
    || a == b
    || (a < b && Piece(src, a) && !Closes(src, a, stop) && PieceEnd(src, a) <= b
        && Strays(src, PieceEnd(src, a), b, stop))
  }

  /** From `a` on there are only such strays, up to the tag that closes `stop`, just past which `b` is,
      or to the end of the source when there is none. */
  predicate Finishes(src: string, a: nat, b: nat, stop: Option<string>)
    requires a <= |src|
    decreases |src| - a
  {
    if a == |src| then b == |src|
    else
      && Piece(src, a)
      && if Closes(src, a, stop) then b == PieceEnd(src, a) else Finishes(src, PieceEnd(src, a), b, stop)
  }

  /** Where an element's content starts: after its opening tag. */
  function ContentStart(src: string, n: Node): nat
    requires n.Element?
    requires n.start + 2 <= |src| && n.start + 1 + |n.name| <= |src|
  {
    if n.name == "" then n.start + 2 else ParseAttrs(src, n.start + 1 + |n.name|, map[]).end
  }

  /** An element without children: a void one, or one whose tag closes itself. */
  predicate Bare(src: string, n: Node)
    requires n.Element? && n.start + 1 + |n.name| <= |src|
  {
    n.name != "" && (IsVoid(n.name) || ParseAttrs(src, n.start + 1 + |n.name|, map[]).selfClosing)
  }

  /** An element's name and attributes are those of the tag it starts with; a fragment has neither. */
  predicate TagOk(src: string, n: Node)
    requires n.Element?
    ensures TagOk(src, n) ==> n.start + 2 <= |src| && n.start + 1 + |n.name| <= |src| && src[n.start] == '<'
  {
    var i := n.start + 1;
    if n.name == "" then Two(src, n.start, '<', '>') && n.attrs == map[]
    else
      && i < |src| && src[n.start] == '<'
      && n.name == TagName(src, i) && n.attrs == ParseAttrs(src, i + |n.name|, map[]).attrs
  }

  ghost predicate NodeOk(src: string, n: Node)
    decreases n
  {
    match n
    case Text(a, b) => PlainText(src, a, b)
    case Expr(a, b) => a < |src| && src[a] == '{' && b == SkipExpression(src, a)
    case Element(name, _, children, a, b) =>
      && TagOk(src, n) && a < ContentStart(src, n) <= b
      && if Bare(src, n) then
           children == [] && b == ContentStart(src, n)
         else Tiled(src, children, ContentStart(src, n), b, Some(name))
  }

  /** `nodes` tile `src[a..b]`, where `b` is just past the first closing tag of `stop`, or the end of
      the source: ascending, disjoint, inside, each one right, nothing between them but comments and
      closing tags of something else, and no text cut in two. */
  ghost predicate Tiled(src: string, nodes: seq<Node>, a: nat, b: nat, stop: Option<string>)
    decreases nodes
  {
    if nodes == [] then a <= |src| && Finishes(src, a, b, stop)
    else
      && a <= nodes[0].start < nodes[0].end <= b <= |src|
      && Strays(src, a, nodes[0].start, stop)
      && NodeOk(src, nodes[0])
      && (|nodes| > 1 && nodes[0].Text? && nodes[1].Text? ==> nodes[0].end < nodes[1].start)
      && Tiled(src, nodes[1..], nodes[0].end, b, stop)
  }

  lemma {:induction false} FinishesOrder(src: string, a: nat, b: nat, stop: Option<string>)
    requires a <= |src| && Finishes(src, a, b, stop)
    ensures a <= b <= |src|
    decreases |src| - a
  {
    if a < |src| && !Closes(src, a, stop) { FinishesOrder(src, PieceEnd(src, a), b, stop); }
  }

  lemma TiledOrder(src: string, nodes: seq<Node>, a: nat, b: nat, stop: Option<string>)
    requires Tiled(src, nodes, a, b, stop)
    ensures a <= b <= |src|
  {
    if nodes == [] { FinishesOrder(src, a, b, stop); }
  }

  /** A stray piece before what is tiled. */
  lemma SkipPiece(src: string, nodes: seq<Node>, i: nat, b: nat, stop: Option<string>)
    requires Piece(src, i) && !Closes(src, i, stop) && Tiled(src, nodes, PieceEnd(src, i), b, stop)
    ensures Tiled(src, nodes, i, b, stop)
  {
    TiledOrder(src, nodes, PieceEnd(src, i), b, stop);
  }

  /** No text starts at `i`. */
  predicate NoTextAt(nodes: seq<Node>, i: nat) {
    nodes != [] && nodes[0].Text? ==> i < nodes[0].start
  }

  lemma PushNode(src: string, n: Node, nodes: seq<Node>, b: nat, stop: Option<string>)
    requires NodeOk(src, n) && n.start < n.end <= b <= |src| && Tiled(src, nodes, n.end, b, stop)
    requires n.Text? ==> NoTextAt(nodes, n.end)
    ensures Tiled(src, [n] + nodes, n.start, b, stop)
  {
    assert ([n] + nodes)[1..] == nodes;
  }

  lemma PushText(src: string, from: nat, i: nat, nodes: seq<Node>, b: nat, stop: Option<string>)
    requires from <= i <= b <= |src| && PlainText(src, from, i) && Tiled(src, nodes, i, b, stop) && NoTextAt(nodes, i)
    ensures Tiled(src, Flush(from, i) + nodes, from, b, stop)
  {
    if from < i {
      PushNode(src, Text(from, i), nodes, b, stop);
    } else {
      assert Flush(from, i) + nodes == nodes;
    }
  }

  lemma ElementOk(src: string, n: Node, tag: Tag)
    requires n.Element? && n.name != "" && n.start < |src| && src[n.start] == '<' && n.name == TagName(src, n.start + 1)
    requires tag == ParseAttrs(src, n.start + 1 + |n.name|, map[]) && n.attrs == tag.attrs && tag.end <= n.end
    requires if IsVoid(n.name) || tag.selfClosing then n.children == [] && n.end == tag.end
             else Tiled(src, n.children, tag.end, n.end, Some(n.name))
    ensures NodeOk(src, n)
  {
    hide Tiled, ParseAttrs, TagName, IsVoid;
    assert TagOk(src, n) && ContentStart(src, n) == tag.end;
  }

  lemma {:induction false} ElementTiles(src: string, i: nat, name: string)
    requires i < |src| && src[i] == '<' && name == TagName(src, i + 1) && name != ""
    ensures NodeOk(src, ParseElement(src, i, name))
    decreases |src| - i, 0, 0
  {
    hide ParseAttrs, TagName, IsVoid, NodeOk;
    var tag := ParseAttrs(src, i + 1 + |name|, map[]);
    if !tag.selfClosing && !IsVoid(name) {
      ParseTiles(src, tag.end, tag.end, Some(name));
      assert ParseChildren(src, tag.end, Some(name)) == ParseFrom(src, tag.end, tag.end, Some(name));
    }
    ElementOk(src, ParseElement(src, i, name), tag);
  }

  lemma {:induction false} FragmentTiles(src: string, i: nat)
    requires i < |src| && Two(src, i, '<', '>')
    ensures var body := ParseChildren(src, i + 2, Some("")); NodeOk(src, Element("", map[], body.nodes, i, body.end))
    decreases |src| - i, 0, 0
  {
    ParseTiles(src, i + 2, i + 2, Some(""));
  }

  /** From any point of the child loop, with plain text pending, what is still to be parsed tiles
      the rest. */
  lemma {:induction false} ParseTiles(src: string, from: nat, i: nat, stop: Option<string>)
    requires from <= i <= |src| && PlainText(src, from, i)
    ensures Tiled(src, ParseFrom(src, from, i, stop).nodes, from, ParseFrom(src, from, i, stop).end, stop)
    decreases |src| - i, 1
  {
    var r := ParseFrom(src, from, i, stop);
    if i == |src| {
      PushText(src, from, i, [], i, stop);
      assert Flush(from, i) + [] == Flush(from, i);
      return;
    }
    var step := StepNode(src, from, i, stop);
    match step
    case Close(nodes, end) =>
      CloseTiles(src, from, i, stop);
    case Next(nodes, f, j) =>
      if nodes == [] && f == from && j == i + 1 && (src[i] != '<' || !Opens(src, i)) {
        ParseTiles(src, from, j, stop);
        assert r.nodes == ParseFrom(src, f, j, stop).nodes;
      } else {
        NextTiles(src, from, i, stop);
      }
  }

  lemma CloseTiles(src: string, from: nat, i: nat, stop: Option<string>)
    requires from <= i < |src| && PlainText(src, from, i) && StepNode(src, from, i, stop).Close?
    ensures Tiled(src, ParseFrom(src, from, i, stop).nodes, from, ParseFrom(src, from, i, stop).end, stop)
  {
    var end := StepNode(src, from, i, stop).end;
    assert Closes(src, i, stop) && PieceEnd(src, i) == end;
    assert Tiled(src, [], i, end, stop);
    PushText(src, from, i, [], end, stop);
    assert Flush(from, i) + [] == Flush(from, i);
  }

  /** The node a turn adds, when it adds one. */
  lemma {:induction false} NewNodeTiles(src: string, from: nat, i: nat, stop: Option<string>) returns (n: Node)
    requires from <= i < |src|
    requires src[i] == '{' || (src[i] == '<' && Opens(src, i) && !Piece(src, i))
    ensures NodeOk(src, n) && n.start == i < n.end <= |src| && !n.Text?
    ensures StepNode(src, from, i, stop) == Next(Flush(from, i) + [n], n.end, n.end)
    decreases |src| - i, 0, 1
  {
    if src[i] == '{' {
      n := Expr(i, SkipExpression(src, i));
    } else if Two(src, i, '<', '>') {
      var body := ParseChildren(src, i + 2, Some(""));
      n := Element("", map[], body.nodes, i, body.end);
      FragmentTiles(src, i);
    } else {
      n := ParseElement(src, i, TagName(src, i + 1));
      ElementTiles(src, i, TagName(src, i + 1));
    }
  }

  lemma PieceStep(src: string, from: nat, i: nat, stop: Option<string>)
    requires from <= i < |src| && src[i] == '<' && Piece(src, i) && StepNode(src, from, i, stop).Next?
    ensures !Closes(src, i, stop)
    ensures StepNode(src, from, i, stop) == Next(Flush(from, i), PieceEnd(src, i), PieceEnd(src, i))
  {
    hide CommentEnd, CloseTagEnd, TagName;
  }

  lemma FromNext(src: string, from: nat, i: nat, stop: Option<string>)
    requires from <= i < |src| && StepNode(src, from, i, stop).Next?
    ensures var step := StepNode(src, from, i, stop);
            ParseFrom(src, from, i, stop) == Prepend(step.nodes, ParseFrom(src, step.from, step.i, stop))
  {
    hide StepNode;
  }

  lemma {:induction false} NextTiles(src: string, from: nat, i: nat, stop: Option<string>)
    requires from <= i < |src| && PlainText(src, from, i)
    requires src[i] == '{' || (src[i] == '<' && Opens(src, i))
    requires StepNode(src, from, i, stop).Next?
    ensures Tiled(src, ParseFrom(src, from, i, stop).nodes, from, ParseFrom(src, from, i, stop).end, stop)
    decreases |src| - i, 0, 2
  {
    hide StepNode, ParseFrom, Tiled, NodeOk, Opens, PieceEnd, Closes, Flush;
    var Next(nodes, f, j) := StepNode(src, from, i, stop);
    var rest := ParseFrom(src, f, j, stop);
    FromNext(src, from, i, stop);
    if src[i] == '<' && Piece(src, i) {
      PieceStep(src, from, i, stop);
      ParseTiles(src, f, f, stop);
      TiledOrder(src, rest.nodes, f, rest.end, stop);
      SkipPiece(src, rest.nodes, i, rest.end, stop);
      StartsAfter(src, rest.nodes, f, rest.end, stop);
      PushText(src, from, i, rest.nodes, rest.end, stop);
    } else {
      var n := NewNodeTiles(src, from, i, stop);
      ParseTiles(src, f, f, stop);
      TiledOrder(src, rest.nodes, f, rest.end, stop);
      PushNode(src, n, rest.nodes, rest.end, stop);
      PushText(src, from, i, [n] + rest.nodes, rest.end, stop);
      assert nodes + rest.nodes == Flush(from, i) + ([n] + rest.nodes);
    }
  }

  lemma StartsAfter(src: string, nodes: seq<Node>, a: nat, b: nat, stop: Option<string>)
    requires Tiled(src, nodes, a, b, stop)
    ensures nodes != [] ==> a <= nodes[0].start
  {
  }

  /** Parsing children tiles what it covers, whatever the source; without a closing tag to look
      for, as in a whole document, that is everything. */
  lemma ChildrenTiled(src: string, start: nat, stop: Option<string>)
    requires start <= |src|
    ensures Tiled(src, ParseChildren(src, start, stop).nodes, start, ParseChildren(src, start, stop).end, stop)
    ensures stop == None ==> ParseChildren(src, start, stop).end == |src|
  {
    ParseTiles(src, start, start, stop);
    if stop == None { ParsesToEnd(src, start, start, stop); }
  }

  lemma {:induction false} ParsesToEnd(src: string, from: nat, i: nat, stop: Option<string>)
    requires from <= i <= |src| && stop == None
    ensures ParseFrom(src, from, i, stop).end == |src|
    decreases |src| - i
  {
    if i < |src| {
      var step := StepNode(src, from, i, stop);
      ParsesToEnd(src, step.from, step.i, stop);
    }
  }

  // --- There is one tree ----------------------------------------------------------------------

  /** What the character where a node starts says of its kind. */
  lemma Starts(src: string, n: Node)
    requires NodeOk(src, n) && n.start < n.end <= |src|
    ensures n.Expr? <==> src[n.start] == '{'
    ensures n.Element? <==> src[n.start] == '<' && Opens(src, n.start)
    ensures !Piece(src, n.start)
  {
    hide ParseAttrs, IsVoid, Tiled;
  }

  lemma TextPlain(src: string, n: Node, k: nat)
    requires NodeOk(src, n) && n.Text? && n.start <= k < n.end <= |src|
    ensures src[k] != '{' && (src[k] == '<' ==> !Opens(src, k))
  {
  }

  /** Two stretches of strays that both run up to something else are the same one. */
  lemma {:induction false} StraysMeet(src: string, a: nat, p: nat, q: nat, stop: Option<string>)
    requires Strays(src, a, p, stop) && !Piece(src, p) && Strays(src, a, q, stop) && !Piece(src, q)
    ensures p == q
    decreases if a < p then p - a else 0
  {
    if a < p && a < q { StraysMeet(src, PieceEnd(src, a), p, q, stop); }
  }

  lemma {:induction false} StraysEnd(src: string, a: nat, p: nat, b: nat, stop: Option<string>)
    requires a <= |src| && Strays(src, a, p, stop) && p < |src| && Finishes(src, a, b, stop)
    ensures Piece(src, p)
    decreases if a < p then p - a else 0
  {
    if a < p { StraysEnd(src, PieceEnd(src, a), p, b, stop); }
  }

  lemma {:induction false} FinishesOnce(src: string, a: nat, b: nat, c: nat, stop: Option<string>)
    requires a <= |src| && Finishes(src, a, b, stop) && Finishes(src, a, c, stop)
    ensures b == c
    decreases |src| - a
  {
    if a < |src| && !Closes(src, a, stop) { FinishesOnce(src, PieceEnd(src, a), b, c, stop); }
  }

  /** What follows a text leaf is no text. */
  lemma AfterText(src: string, nodes: seq<Node>, a: nat, b: nat, stop: Option<string>, k: nat)
    requires nodes != [] && Tiled(src, nodes, a, b, stop) && nodes[0].Text? && nodes[0].end < |src|
    requires k == nodes[0].end
    ensures src[k] == '{' || (src[k] == '<' && Opens(src, k))
  {
    hide NodeOk, Opens, Finishes, PieceEnd;
    if !PieceOpens(src, k) {
      var rest := nodes[1..];
      assert Tiled(src, rest, k, b, stop);
      if rest == [] {
        Unfinished(src, k, b, stop);
      } else {
        NoStrays(src, k, rest[0].start, stop);
        Starts(src, rest[0]);
        assert rest[0] == nodes[1];
      }
    }
  }

  predicate PieceOpens(src: string, i: nat)
    ensures PieceOpens(src, i) <==> Piece(src, i)
    ensures PieceOpens(src, i) ==> src[i] == '<' && Opens(src, i)
  {
    Piece(src, i)
  }

  lemma Unfinished(src: string, a: nat, b: nat, stop: Option<string>)
    requires a < |src| && Finishes(src, a, b, stop)
    ensures Piece(src, a)
  {
  }

  lemma NoStrays(src: string, a: nat, p: nat, stop: Option<string>)
    requires Strays(src, a, p, stop) && !Piece(src, a)
    ensures a == p
  {
  }

  lemma TextEnds(src: string, xs: seq<Node>, ys: seq<Node>, a: nat, b: nat, c: nat, stop: Option<string>)
    requires xs != [] && ys != [] && Tiled(src, xs, a, b, stop) && Tiled(src, ys, a, c, stop)
    requires xs[0].Text? && ys[0].Text? && xs[0].start == ys[0].start
    ensures xs[0].end >= ys[0].end
  {
    hide Opens, Finishes, Strays;
    if xs[0].end < ys[0].end {
      AfterText(src, xs, a, b, stop, xs[0].end);
      TextPlain(src, ys[0], xs[0].end);
    }
  }

  lemma SameStart(src: string, xs: seq<Node>, ys: seq<Node>, a: nat, b: nat, c: nat, stop: Option<string>)
    requires xs != [] && ys != [] && Tiled(src, xs, a, b, stop) && Tiled(src, ys, a, c, stop)
    ensures xs[0].start == ys[0].start
    ensures xs[0].Text? == ys[0].Text? && xs[0].Expr? == ys[0].Expr?
  {
    hide NodeOk, Opens, PieceEnd, Finishes;
    Starts(src, xs[0]);
    Starts(src, ys[0]);
    StraysMeet(src, a, xs[0].start, ys[0].start, stop);
  }

  lemma NoNodes(src: string, xs: seq<Node>, a: nat, b: nat, c: nat, stop: Option<string>)
    requires Tiled(src, [], a, b, stop) && Tiled(src, xs, a, c, stop)
    ensures xs == [] && b == c
  {
    hide NodeOk, Opens, PieceEnd, Piece;
    if xs == [] {
      FinishesOnce(src, a, b, c, stop);
    } else {
      StraysEnd(src, a, xs[0].start, b, stop);
      Starts(src, xs[0]);
    }
  }

  lemma SameTag(src: string, x: Node, y: Node)
    requires x.Element? && y.Element? && x.start == y.start && TagOk(src, x) && TagOk(src, y)
    ensures x.name == y.name && x.attrs == y.attrs
    ensures ContentStart(src, x) == ContentStart(src, y) && Bare(src, x) == Bare(src, y)
  {
    hide ParseAttrs, IsVoid, Tiled;
  }

  lemma {:induction false} ElementIsUnique(src: string, x: Node, y: Node)
    requires x.Element? && y.Element? && x.start == y.start && NodeOk(src, x) && NodeOk(src, y)
    ensures x == y
    decreases x
  {
    hide TagOk, Bare, ContentStart, Tiled;
    SameTag(src, x, y);
    if !Bare(src, x) {
      TreeIsUnique(src, x.children, y.children, ContentStart(src, x), x.end, y.end, Some(x.name));
    }
  }

  lemma {:induction false} FirstIsUnique(src: string, xs: seq<Node>, ys: seq<Node>, a: nat, b: nat, c: nat,
                                         stop: Option<string>)
    requires xs != [] && ys != [] && Tiled(src, xs, a, b, stop) && Tiled(src, ys, a, c, stop)
    requires xs[0].start == ys[0].start && xs[0].Text? == ys[0].Text? && xs[0].Expr? == ys[0].Expr?
    ensures xs[0] == ys[0]
    decreases xs, 0
  {
    if xs[0].Text? {
      TextEnds(src, xs, ys, a, b, c, stop);
      TextEnds(src, ys, xs, a, c, b, stop);
    } else if xs[0].Element? {
      hide NodeOk, Finishes, Strays;
      ElementIsUnique(src, xs[0], ys[0]);
    }
  }

  /** The source leaves no choice: of two tilings of what follows a point, up to the same tag, each
      is the other, node for node and to the same end. */
  lemma {:induction false} TreeIsUnique(src: string, xs: seq<Node>, ys: seq<Node>, a: nat, b: nat, c: nat,
                                        stop: Option<string>)
    requires Tiled(src, xs, a, b, stop) && Tiled(src, ys, a, c, stop)
    ensures xs == ys && b == c
    decreases xs, 1
  {
    if xs == [] {
      NoNodes(src, ys, a, b, c, stop);
    } else if ys == [] {
      NoNodes(src, xs, a, c, b, stop);
    } else {
      SameStart(src, xs, ys, a, b, c, stop);
      FirstIsUnique(src, xs, ys, a, b, c, stop);
      TreeIsUnique(src, xs[1..], ys[1..], xs[0].end, b, c, stop);
      assert xs == [xs[0]] + xs[1..] && ys == [ys[0]] + ys[1..];
    }
  }

  /** What the parser returns is the one tree that tiles the source from there. */
  lemma ParsedIff(src: string, start: nat, stop: Option<string>, nodes: seq<Node>, end: nat)
    requires start <= |src|
    ensures ParseChildren(src, start, stop) == Parsed(nodes, end) <==> Tiled(src, nodes, start, end, stop)
  {
    var r := ParseChildren(src, start, stop);
    ChildrenTiled(src, start, stop);
    if Tiled(src, nodes, start, end, stop) {
      TreeIsUnique(src, r.nodes, nodes, start, r.end, end, stop);
    }
  }

  // --- What tiling means --------------------------------------------------------------------

  function In(a: nat, b: nat, p: nat): nat {
    if a <= p < b then 1 else 0
  }

  /** How many tiles contain position `p`: text leaves, expression leaves, opening tags, and the
      stretches of comments and closing tags between nodes. */
  ghost function Tiles(src: string, nodes: seq<Node>, a: nat, b: nat, stop: Option<string>, p: nat): nat
    requires Tiled(src, nodes, a, b, stop)
    decreases nodes
  {
    if nodes == [] then In(a, b, p)
    else
      var n := nodes[0];
      assert NodeOk(src, n);
      In(a, n.start, p)
      + (match n
         case Text(s, e) => In(s, e, p)
         case Expr(s, e) => In(s, e, p)
         case Element(name, _, children, s, e) =>
           In(s, ContentStart(src, n), p)
           + if Bare(src, n) then 0 else Tiles(src, children, ContentStart(src, n), e, Some(name), p))
      + Tiles(src, nodes[1..], n.end, b, stop, p)
  }

  /** Every character belongs to exactly one text leaf, expression leaf or piece of markup. */
  lemma {:induction false} ExactlyOneTile(src: string, nodes: seq<Node>, a: nat, b: nat, stop: Option<string>, p: nat)
    requires Tiled(src, nodes, a, b, stop)
    ensures Tiles(src, nodes, a, b, stop, p) == In(a, b, p)
    decreases nodes
  {
    TiledOrder(src, nodes, a, b, stop);
    if nodes != [] {
      var n := nodes[0];
      if n.Element? && !Bare(src, n) {
        ExactlyOneTile(src, n.children, ContentStart(src, n), n.end, Some(n.name), p);
      }
      ExactlyOneTile(src, nodes[1..], n.end, b, stop, p);
      TiledOrder(src, nodes[1..], n.end, b, stop);
    }
  }

  /** Siblings ascend and do not overlap, and none leaves the region. */
  lemma {:induction false} SiblingsAscend(src: string, nodes: seq<Node>, a: nat, b: nat, stop: Option<string>,
                                          k: nat, l: nat)
    requires Tiled(src, nodes, a, b, stop) && k <= l < |nodes|
    ensures a <= nodes[k].start < nodes[k].end && nodes[l].end <= b
    ensures k < l ==> nodes[k].end <= nodes[l].start
    decreases nodes
  {
    if l > 0 {
      var n := nodes[0];
      SiblingsAscend(src, nodes[1..], n.end, b, stop, if k == 0 then 0 else k - 1, l - 1);
    } else {
      TiledOrder(src, nodes[1..], nodes[0].end, b, stop);
    }
  }
}
