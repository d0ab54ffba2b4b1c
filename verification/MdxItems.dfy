/** Elements among the items of a literal. */
module MdxItems {
  import opened Options
  import opened Strings
  import opened MdxScan
  import opened MdxTree
  import opened MdxLiteral

  /** The element the parser finds at `i` is the one that ends where the item loop goes on. */
  lemma {:induction false} ElementEndIs(src: string, i: nat, n: Node)
    requires i < |src| && n.Element? && n.start == i && n.end <= |src| && NodeOk(src, n)
    ensures src[i] == '<' && ElementEnd(src, i) == n.end
  {
    hide ParseAttrs, Tiled, IsVoid, TagName;
    if n.name == "" {
      FragmentIs(src, n);
    } else {
      var element := ParseElement(src, i, n.name);
      ElementTiles(src, i, n.name);
      ElementIsUnique(src, element, n);
    }
  }

  lemma {:induction false} FragmentIs(src: string, n: Node)
    requires n.Element? && n.name == "" && n.end <= |src| && NodeOk(src, n)
    ensures ParseChildren(src, n.start + 2, Some("")).end == n.end
  {
    hide ParseAttrs;
    var body := ParseChildren(src, n.start + 2, Some(""));
    var parsed := Element("", map[], body.nodes, n.start, body.end);
    FragmentTiles(src, n.start);
    ElementIsUnique(src, parsed, n);
  }

  /** An element among the items is passed over whole, with every comma, quote and bracket in it. */
  lemma {:induction false} ElementIsOneItem(src: string, n: Node, end: nat, from: nat, closer: char)
    requires n.Element? && from <= n.start < end <= |src| && n.start < n.end <= |src| && NodeOk(src, n)
    ensures SplitFrom(src, n.start, end, 0, from, closer) == SplitFrom(src, n.end, end, 0, from, closer)
  {
    ElementEndIs(src, n.start, n);
    hide NodeOk;
  }
}
