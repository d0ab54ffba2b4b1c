/** Printing a JavaScript literal and reading it back, wherever in a document it is printed. */
module MdxRoundTrip {
  import opened Options
  import opened Strings
  import opened MdxScan
  import opened MdxLiteral

  // --- Literals as they can be printed ------------------------------------------------------

  /** One character of a string, written as itself or behind a backslash. */
  datatype Code = Plain(c: char) | Escaped(c: char)

  /** `tail` is the whitespace after a dangling comma, or all that an empty literal holds. */
  datatype Js =
    | Str(quote: char, codes: seq<Code>)
    | List(entries: seq<Entry>, tail: Option<string>)
    | Obj(entries: seq<Entry>, tail: Option<string>)

  /** A value in a list or under a key, with the whitespace around it. */
  datatype Entry = Entry(key: Option<Key>, before: string, value: Js, after: string)

  datatype Key = Key(before: string, quote: Option<char>, name: string, after: string)

  function Spell(codes: seq<Code>): string {
    if codes == [] then ""
    else (match codes[0] case Plain(c) => [c] case Escaped(c) => ['\\', c]) + Spell(codes[1..])
  }

  /** The character that a letter behind a backslash means. */
  function Meant(c: char): char {
    match c
    case 'n' => '\n'
    case 't' => '\t'
    case 'r' => '\r'
    case _ => c
  }

  function Decode(codes: seq<Code>): string {
    if codes == [] then ""
    else [match codes[0] case Plain(c) => c case Escaped(c) => Meant(c)] + Decode(codes[1..])
  }

  function KeyName(key: Key): string {
    if key.quote.Some? then [key.quote.value] + key.name + [key.quote.value] else key.name
  }

  function Lead(e: Entry): string {
    if e.key.Some? then e.key.value.before + KeyName(e.key.value) + (e.key.value.after + ":" + e.before) else e.before
  }

  function Show(js: Js): (text: string)
    ensures text != ""
    decreases js
  {
    match js
    case Str(quote, codes) => [quote] + Spell(codes) + [quote]
    case List(entries, tail) => "[" + Body(entries, tail) + "]"
    case Obj(entries, tail) => "{" + Body(entries, tail) + "}"
  }

  function ShowEntry(e: Entry): (text: string)
    ensures text != ""
    decreases e
  {
    Lead(e) + Show(e.value) + e.after
  }

  function Body(entries: seq<Entry>, tail: Option<string>): string
    decreases entries
  {
    if entries == [] then (if tail.Some? then tail.value else "")
    else if |entries| == 1 && tail.None? then ShowEntry(entries[0])
    else ShowEntry(entries[0]) + "," + Body(entries[1..], tail)
  }

  /** A quote, a backslash and a template's `${` cannot stand for themselves. */
  predicate CodesOk(quote: char, codes: seq<Code>) {
    codes == [] ||
    (&& (codes[0].Plain? ==>
          && codes[0].c != quote && codes[0].c != '\\'
          && (quote == '`' && codes[0].c == '$' ==> |codes| == 1 || codes[1] != Plain('{')))
     && CodesOk(quote, codes[1..]))
  }

  predicate NameText(s: string) {
    s != "" && NameStart(s[0]) && forall k :: 0 <= k < |s| ==> KeyChar(s[k])
  }

  predicate RawText(s: string, quote: char) {
    forall k :: 0 <= k < |s| ==> s[k] != quote && s[k] != '\\'
  }

  predicate KeyOk(key: Key) {
    && Blank(key.before) && Blank(key.after)
    && (match key.quote
        case None => NameText(key.name)
        case Some(q) => (q == '\'' || q == '"') && RawText(key.name, q))
  }

  ghost predicate JsOk(js: Js)
    decreases js
  {
    match js
    case Str(quote, codes) => Quote(quote) && CodesOk(quote, codes)
    case List(entries, tail) => EntriesOk(entries, tail) && forall k :: 0 <= k < |entries| ==> entries[k].key.None?
    case Obj(entries, tail) =>
      && EntriesOk(entries, tail)
      && (forall k :: 0 <= k < |entries| ==> entries[k].key.Some?) && DistinctKeys(entries)
  }

  predicate DistinctKeys(entries: seq<Entry>) {
    forall j, k :: 0 <= j < k < |entries| && entries[j].key.Some? && entries[k].key.Some? ==>
      entries[j].key.value.name != entries[k].key.value.name
  }

  ghost predicate EntriesOk(entries: seq<Entry>, tail: Option<string>)
    decreases entries
  {
    (tail.Some? ==> Blank(tail.value)) && forall k :: 0 <= k < |entries| ==> EntryOk(entries[k])
  }

  ghost predicate EntryOk(e: Entry)
    decreases e
  {
    Blank(e.before) && Blank(e.after) && JsOk(e.value) && (e.key.Some? ==> KeyOk(e.key.value))
  }

  // --- What reading gives ---------------------------------------------------------------------

  /** Reading the span gives `js`: its text, its items in order, or its keys and their values. */
  ghost predicate Reads(src: string, start: nat, end: nat, js: Js)
    requires end <= |src|
    decreases js
  {
    match js
    case Str(_, codes) => Literal(src, start, end) == Some(Decode(codes))
    case List(entries, _) =>
      && Literal(src, start, end) == None
      && var items := SplitList(src, start, end, '[', ']');
         && |items| == |entries|
         && forall k :: 0 <= k < |items| ==> Reads(src, items[k].start, items[k].end, entries[k].value)
    case Obj(entries, _) =>
      && Literal(src, start, end) == None
      && var keys := ObjectKeys(src, start, end);
         && (forall name <- keys :: exists k :: 0 <= k < |entries| && KeyIs(entries[k], name))
         && forall k :: 0 <= k < |entries| && entries[k].key.Some? ==>
              && entries[k].key.value.name in keys
              && keys[entries[k].key.value.name].end <= |src|
              && Reads(src, keys[entries[k].key.value.name].start, keys[entries[k].key.value.name].end,
                  entries[k].value)
  }

  predicate KeyIs(e: Entry, name: string) { e.key.Some? && e.key.value.name == name }

  /** `text` stands at `i`. */
  predicate At(src: string, i: nat, text: string)
    decreases |text|
  {
    i + |text| <= |src| && (text == "" || (src[i] == text[0] && At(src, i + 1, text[1..])))
  }

  lemma {:induction false} AtSplit(src: string, i: nat, a: string, b: string)
    requires At(src, i, a + b)
    ensures At(src, i, a) && At(src, i + |a|, b)
    decreases |a|
  {
    if a == "" {
      assert a + b == b;
    } else {
      assert (a + b)[1..] == a[1..] + b;
      AtSplit(src, i + 1, a[1..], b);
    }
  }

  lemma {:induction false} SliceAt(src: string, i: nat, text: string)
    requires At(src, i, text)
    ensures src[i..i + |text|] == text
    decreases |text|
  {
    if text != "" { SliceAt(src, i + 1, text[1..]); }
  }

  lemma AtSplit3(src: string, i: nat, a: string, b: string, c: string)
    requires At(src, i, a + b + c)
    ensures At(src, i, a) && At(src, i + |a|, b) && At(src, i + |a| + |b|, c)
  {
    AtSplit(src, i, a + b, c);
    AtSplit(src, i, a, b);
  }

  // --- Strings ----------------------------------------------------------------------------------

  lemma {:induction false} CodesSkip(src: string, i: nat, quote: char, codes: seq<Code>)
    requires Quote(quote) && CodesOk(quote, codes) && At(src, i, Spell(codes))
    requires i + |Spell(codes)| < |src| && src[i + |Spell(codes)|] == quote
    ensures StringEnd(src, quote, i) == i + |Spell(codes)| + 1
    decreases codes
  {
    if codes != [] {
      var first := match codes[0] case Plain(c) => [c] case Escaped(c) => ['\\', c];
      AtSplit(src, i, first, Spell(codes[1..]));
      assert first[0] == src[i];
      if codes[0].Plain? && |codes| > 1 {
        var second := match codes[1] case Plain(c) => [c] case Escaped(c) => ['\\', c];
        AtSplit(src, i + 1, second, Spell(codes[1..][1..]));
        assert second[0] == src[i + 1];
      }
      CodesSkip(src, i + |first|, quote, codes[1..]);
    }
  }

  lemma {:induction false} CodesRead(src: string, i: nat, codes: seq<Code>, quote: char)
    requires CodesOk(quote, codes) && At(src, i, Spell(codes))
    ensures Unescape(src, i, i + |Spell(codes)|) == Decode(codes)
    decreases codes
  {
    if codes != [] {
      var first := match codes[0] case Plain(c) => [c] case Escaped(c) => ['\\', c];
      AtSplit(src, i, first, Spell(codes[1..]));
      assert first[0] == src[i];
      assert codes[0].Escaped? ==> first[1] == src[i + 1];
      CodesRead(src, i + |first|, codes[1..], quote);
    }
  }

  lemma {:induction false} QuotedSkip(src: string, i: nat, q: char, name: string)
    requires (q == '\'' || q == '"') && At(src, i, name) && RawText(name, q)
    requires i + |name| < |src| && src[i + |name|] == q
    ensures StringEnd(src, q, i) == i + |name| + 1
    decreases |name|
  {
    if name != "" {
      QuotedSkip(src, i + 1, q, name[1..]);
    }
  }

  // --- The item loop walks past what is nested -----------------------------------------------------

  predicate Inert(c: char) { !Quote(c) && !OpenBracket(c) && !CloseBracket(c) && c != '<' && c != ',' }

  predicate InertText(s: string) { forall k :: 0 <= k < |s| ==> Inert(s[k]) }

  lemma {:induction false} InertSkip(src: string, i: nat, text: string, end: nat, depth: int, from: nat, closer: char)
    requires from <= i && i + |text| <= end <= |src| && At(src, i, text) && InertText(text)
    ensures SplitFrom(src, i, end, depth, from, closer) == SplitFrom(src, i + |text|, end, depth, from, closer)
    decreases |text|
  {
    if text != "" {
      InertSkip(src, i + 1, text[1..], end, depth, from, closer);
    }
  }

  lemma KeySkip(src: string, i: nat, key: Key, end: nat, depth: int, from: nat, closer: char)
    requires from <= i && i + |KeyName(key)| <= end <= |src| && At(src, i, KeyName(key)) && KeyOk(key)
    ensures SplitFrom(src, i, end, depth, from, closer) == SplitFrom(src, i + |KeyName(key)|, end, depth, from, closer)
  {
    if key.quote.Some? {
      KeyStringEnd(src, i, key);
    } else {
      InertSkip(src, i, key.name, end, depth, from, closer);
    }
  }

  lemma KeyStringEnd(src: string, i: nat, key: Key)
    requires At(src, i, KeyName(key)) && KeyOk(key) && key.quote.Some?
    ensures i < |src| && src[i] == key.quote.value && SkipString(src, i) == i + |KeyName(key)|
    ensures At(src, i + 1, key.name)
  {
    var q := [key.quote.value];
    AtSplit3(src, i, q, key.name, q);
    assert src[i] == q[0] && src[i + 1 + |key.name|] == q[0];
    QuotedSkip(src, i + 1, q[0], key.name);
  }

  lemma LeadSkip(src: string, i: nat, e: Entry, end: nat, depth: int, from: nat, closer: char)
    requires from <= i && i + |Lead(e)| <= end <= |src| && At(src, i, Lead(e))
    requires Blank(e.before) && (e.key.Some? ==> KeyOk(e.key.value))
    ensures SplitFrom(src, i, end, depth, from, closer) == SplitFrom(src, i + |Lead(e)|, end, depth, from, closer)
  {
    if e.key.Some? {
      NamedSkip(src, i, e.key.value, e.before, end, depth, from, closer);
    } else {
      InertSkip(src, i, e.before, end, depth, from, closer);
    }
  }

  lemma NamedSkip(src: string, i: nat, key: Key, before: string, end: nat, depth: int, from: nat, closer: char)
    requires KeyOk(key) && Blank(before) && from <= i
    requires At(src, i, key.before + KeyName(key) + (key.after + ":" + before))
    requires i + |key.before| + |KeyName(key)| + |key.after| + 1 + |before| <= end <= |src|
    ensures SplitFrom(src, i, end, depth, from, closer)
         == SplitFrom(src, i + |key.before| + |KeyName(key)| + |key.after| + 1 + |before|, end, depth, from, closer)
  {
    hide At;
    var rest := key.after + ":" + before;
    AtSplit3(src, i, key.before, KeyName(key), rest);
    InertSkip(src, i, key.before, end, depth, from, closer);
    KeySkip(src, i + |key.before|, key, end, depth, from, closer);
    InertSkip(src, i + |key.before| + |KeyName(key)|, rest, end, depth, from, closer);
  }

  function OpenOf(js: Js): char { if js.List? then '[' else '{' }
  function CloseOf(js: Js): char { if js.List? then ']' else '}' }

  lemma BodyAt(src: string, i: nat, js: Js)
    requires !js.Str? && At(src, i, Show(js))
    ensures At(src, i + 1, Body(js.entries, js.tail)) && |Show(js)| == |Body(js.entries, js.tail)| + 2
    ensures i < |src| && src[i] == OpenOf(js)
    ensures i + 1 + |Body(js.entries, js.tail)| < |src| && src[i + 1 + |Body(js.entries, js.tail)|] == CloseOf(js)
  {
    AtSplit3(src, i, [OpenOf(js)], Body(js.entries, js.tail), [CloseOf(js)]);
  }

  lemma {:induction false} ValueSkip(src: string, i: nat, js: Js, end: nat, depth: nat, from: nat, closer: char)
    requires from <= i && i + |Show(js)| <= end <= |src| && At(src, i, Show(js)) && JsOk(js)
    ensures SplitFrom(src, i, end, depth, from, closer) == SplitFrom(src, i + |Show(js)|, end, depth, from, closer)
    decreases js
  {
    if js.Str? {
      StringAt(src, i, js);
      return;
    }
    BodyAt(src, i, js);
    BodySkip(src, i + 1, js.entries, js.tail, end, depth + 1, from, closer);
  }

  lemma StringAt(src: string, i: nat, js: Js)
    requires js.Str? && JsOk(js) && At(src, i, Show(js))
    ensures i < |src| && src[i] == js.quote && SkipString(src, i) == i + |Show(js)|
    ensures src[i + |Show(js)| - 1] == js.quote && At(src, i + 1, Spell(js.codes))
  {
    var q := [js.quote];
    AtSplit3(src, i, q, Spell(js.codes), q);
    assert src[i] == q[0] && src[i + 1 + |Spell(js.codes)|] == q[0];
    CodesSkip(src, i + 1, js.quote, js.codes);
  }

  lemma {:induction false} EntrySkip(src: string, i: nat, e: Entry, end: nat, depth: nat, from: nat, closer: char)
    requires from <= i && i + |ShowEntry(e)| <= end <= |src| && At(src, i, ShowEntry(e))
    requires EntryOk(e)
    ensures SplitFrom(src, i, end, depth, from, closer) == SplitFrom(src, i + |ShowEntry(e)|, end, depth, from, closer)
    decreases e
  {
    AtSplit3(src, i, Lead(e), Show(e.value), e.after);
    LeadSkip(src, i, e, end, depth, from, closer);
    ValueSkip(src, i + |Lead(e)|, e.value, end, depth, from, closer);
    InertSkip(src, i + |Lead(e)| + |Show(e.value)|, e.after, end, depth, from, closer);
  }

  lemma AtComma(src: string, i: nat, entries: seq<Entry>, tail: Option<string>)
    requires entries != [] && (|entries| > 1 || tail.Some?) && At(src, i, Body(entries, tail))
    ensures At(src, i, ShowEntry(entries[0]))
    ensures i + |ShowEntry(entries[0])| < |src| && src[i + |ShowEntry(entries[0])|] == ','
    ensures At(src, i + |ShowEntry(entries[0])| + 1, Body(entries[1..], tail))
    ensures |Body(entries, tail)| == |ShowEntry(entries[0])| + 1 + |Body(entries[1..], tail)|
  {
    var e := ShowEntry(entries[0]);
    AtSplit3(src, i, e, ",", Body(entries[1..], tail));
    assert src[i + |e|] == ","[0];
  }

  lemma InnerComma(src: string, i: nat, end: nat, depth: int, from: nat, closer: char)
    requires from <= i < end <= |src| && src[i] == ',' && depth != 0
    ensures SplitFrom(src, i, end, depth, from, closer) == SplitFrom(src, i + 1, end, depth, from, closer)
  {
  }

  lemma {:induction false} BodySkip(src: string, i: nat, entries: seq<Entry>, tail: Option<string>, end: nat,
                                    depth: nat, from: nat, closer: char)
    requires from <= i && i + |Body(entries, tail)| <= end <= |src| && At(src, i, Body(entries, tail))
    requires EntriesOk(entries, tail) && depth > 0
    ensures SplitFrom(src, i, end, depth, from, closer)
        == SplitFrom(src, i + |Body(entries, tail)|, end, depth, from, closer)
    decreases entries
  {
    hide At, SplitFrom, EntryOk, Show, ShowEntry;
    if entries == [] {
      if tail.Some? { InertSkip(src, i, tail.value, end, depth, from, closer); }
    } else if |entries| == 1 && tail.None? {
      EntrySkip(src, i, entries[0], end, depth, from, closer);
    } else {
      var e := ShowEntry(entries[0]);
      AtComma(src, i, entries, tail);
      EntrySkip(src, i, entries[0], end, depth, from, closer);
      InnerComma(src, i + |e|, end, depth, from, closer);
      BodySkip(src, i + |e| + 1, entries[1..], tail, end, depth, from, closer);
    }
  }

  // --- The items of a literal ---------------------------------------------------------------------

  /** Where the entries of a body stand. */
  function Spans(i: nat, entries: seq<Entry>): (spans: seq<Span>)
    ensures |spans| == |entries|
    decreases |entries|
  {
    if entries == [] then []
    else [Span(i, i + |ShowEntry(entries[0])|)] + Spans(i + |ShowEntry(entries[0])| + 1, entries[1..])
  }

  lemma FirstChar(js: Js)
    requires JsOk(js)
    ensures !IsSpace(Show(js)[0])
  {
  }

  lemma EntryItem(src: string, i: nat, e: Entry)
    requires At(src, i, ShowEntry(e)) && JsOk(e.value)
    ensures Item(src, i, i + |ShowEntry(e)|) == [Span(i, i + |ShowEntry(e)|)]
  {
    AtSplit3(src, i, Lead(e), Show(e.value), e.after);
    FirstChar(e.value);
    assert src[i + |Lead(e)| + 0] == Show(e.value)[0];
    assert src[i..i + |ShowEntry(e)|][|Lead(e)|] == src[i + |Lead(e)|];
  }

  lemma BlankItem(src: string, i: nat, pad: string)
    requires At(src, i, pad) && Blank(pad)
    ensures Item(src, i, i + |pad|) == []
  {
    SliceAt(src, i, pad);
  }

  /** The outermost comma ends an item. */
  lemma OuterComma(src: string, i: nat, end: nat, from: nat, closer: char)
    requires from <= i < end <= |src| && src[i] == ','
    ensures SplitFrom(src, i, end, 0, from, closer) == Item(src, from, i) + SplitFrom(src, i + 1, end, 0, i + 1, closer)
  {
  }

  lemma EmptySplit(src: string, i: nat, pad: string, end: nat, closer: char)
    requires At(src, i, pad) && Blank(pad) && i + |pad| < end <= |src|
    requires CloseBracket(closer) && src[i + |pad|] == closer
    ensures SplitFrom(src, i, end, 0, i, closer) == []
  {
    InertSkip(src, i, pad, end, 0, i, closer);
    BlankItem(src, i, pad);
  }

  lemma EntrySplit(src: string, i: nat, e: Entry, end: nat, closer: char)
    requires At(src, i, ShowEntry(e)) && EntryOk(e) && CloseBracket(closer)
    requires i + |ShowEntry(e)| < end <= |src|
    ensures var past := i + |ShowEntry(e)|;
      && (src[past] == closer ==> SplitFrom(src, i, end, 0, i, closer) == [Span(i, past)])
      && (src[past] == ',' ==>
            SplitFrom(src, i, end, 0, i, closer)
                == [Span(i, past)] + SplitFrom(src, past + 1, end, 0, past + 1, closer))
  {
    EntrySkip(src, i, e, end, 0, i, closer);
    EntryItem(src, i, e);
    if src[i + |ShowEntry(e)|] == ',' { OuterComma(src, i + |ShowEntry(e)|, end, i, closer); }
  }

  lemma {:induction false} BodySplit(src: string, i: nat, entries: seq<Entry>, tail: Option<string>, end: nat,
                                     closer: char)
    requires At(src, i, Body(entries, tail)) && EntriesOk(entries, tail)
    requires i + |Body(entries, tail)| < end <= |src|
    requires CloseBracket(closer) && src[i + |Body(entries, tail)|] == closer
    ensures SplitFrom(src, i, end, 0, i, closer) == Spans(i, entries)
    decreases |entries|, 1
  {
    if entries == [] {
      EmptySplit(src, i, Body(entries, tail), end, closer);
    } else if |entries| == 1 && tail.None? {
      OneSplit(src, i, entries, tail, end, closer);
    } else {
      MoreSplit(src, i, entries, tail, end, closer);
    }
  }

  lemma OneSplit(src: string, i: nat, entries: seq<Entry>, tail: Option<string>, end: nat, closer: char)
    requires |entries| == 1 && tail.None? && EntriesOk(entries, tail)
    requires At(src, i, Body(entries, tail)) && i + |Body(entries, tail)| < end <= |src|
    requires CloseBracket(closer) && src[i + |Body(entries, tail)|] == closer
    ensures SplitFrom(src, i, end, 0, i, closer) == Spans(i, entries)
  {
    EntrySplit(src, i, entries[0], end, closer);
  }

  lemma {:induction false} MoreSplit(src: string, i: nat, entries: seq<Entry>, tail: Option<string>, end: nat,
                                     closer: char)
    requires entries != [] && (|entries| > 1 || tail.Some?) && EntriesOk(entries, tail)
    requires At(src, i, Body(entries, tail)) && i + |Body(entries, tail)| < end <= |src|
    requires CloseBracket(closer) && src[i + |Body(entries, tail)|] == closer
    ensures SplitFrom(src, i, end, 0, i, closer) == Spans(i, entries)
    decreases |entries|, 0
  {
    hide At, SplitFrom, EntryOk, Show, ShowEntry, Blank, CloseBracket;
    var next := i + |ShowEntry(entries[0])| + 1;
    AtComma(src, i, entries, tail);
    BodySplit(src, next, entries[1..], tail, end, closer);
    CommaSplit(src, i, entries[0], Spans(next, entries[1..]), end, closer);
  }

  lemma CommaSplit(src: string, i: nat, e: Entry, rest: seq<Span>, end: nat, closer: char)
    requires At(src, i, ShowEntry(e)) && EntryOk(e) && CloseBracket(closer)
    requires i + |ShowEntry(e)| < end <= |src| && src[i + |ShowEntry(e)|] == ','
    requires SplitFrom(src, i + |ShowEntry(e)| + 1, end, 0, i + |ShowEntry(e)| + 1, closer) == rest
    ensures SplitFrom(src, i, end, 0, i, closer) == [Span(i, i + |ShowEntry(e)|)] + rest
  {
    EntrySplit(src, i, e, end, closer);
  }

  lemma {:induction false} SpanLength(i: nat, entries: seq<Entry>, k: nat)
    requires k < |entries|
    ensures Spans(i, entries)[k].end == Spans(i, entries)[k].start + |ShowEntry(entries[k])|
    decreases k
  {
    if k > 0 { SpanLength(i + |ShowEntry(entries[0])| + 1, entries[1..], k - 1); }
  }

  /** Each entry stands where its span says. */
  lemma {:induction false} EntryAt(src: string, i: nat, entries: seq<Entry>, tail: Option<string>, k: nat)
    requires At(src, i, Body(entries, tail)) && k < |entries|
    ensures At(src, Spans(i, entries)[k].start, ShowEntry(entries[k]))
    decreases k
  {
    if |entries| > 1 || tail.Some? {
      AtComma(src, i, entries, tail);
      if k > 0 { EntryAt(src, i + |ShowEntry(entries[0])| + 1, entries[1..], tail, k - 1); }
    }
  }

  // --- Reading back -------------------------------------------------------------------------------

  lemma {:induction false} SpacesFirst(src: string, i: nat, pad: string, end: nat)
    requires At(src, i, pad) && Blank(pad) && i + |pad| < end <= |src| && !IsSpace(src[i + |pad|])
    ensures SpaceEnd(src, i, end) == i + |pad|
    decreases |pad|
  {
    if pad != "" {
      SpacesFirst(src, i + 1, pad[1..], end);
    }
  }

  lemma {:induction false} SpacesLast(src: string, from: nat, i: nat, pad: string, n: nat)
    requires from < i && At(src, i, pad) && Blank(pad) && n <= |pad| && !IsSpace(src[i - 1])
    ensures SolidEnd(src, from, i + n) == i
    decreases n
  {
    if n > 0 {
      SliceAt(src, i, pad);
      assert src[i + (n - 1)] == src[i..i + |pad|][n - 1];
      SpacesLast(src, from, i, pad, n - 1);
    }
  }

  /** `js`, with whitespace around it, is all there is between `a` and `b`. */
  ghost predicate Stands(src: string, a: nat, b: nat, before: string, js: Js, after: string) {
    && At(src, a, before + Show(js) + after) && b == a + |before| + |Show(js)| + |after|
    && Blank(before) && Blank(after) && JsOk(js)
  }

  lemma StandsAt(src: string, a: nat, b: nat, before: string, js: Js, after: string)
    requires Stands(src, a, b, before, js, after)
    ensures b <= |src| && At(src, a + |before|, Show(js)) && At(src, a + |before| + |Show(js)|, after)
    ensures SpaceEnd(src, a, b) == a + |before| && src[a + |before|] == Show(js)[0]
  {
    AtSplit3(src, a, before, Show(js), after);
    FirstChar(js);
    assert src[a + |before| + 0] == Show(js)[0];
    SpacesFirst(src, a, before, b);
  }

  lemma StringReads(src: string, a: nat, b: nat, before: string, js: Js, after: string)
    requires js.Str? && Stands(src, a, b, before, js, after)
    ensures b <= |src| && Literal(src, a, b) == Some(Decode(js.codes))
  {
    hide At, SplitFrom, SpaceEnd, SolidEnd, CodesOk, Unescape, Literal;
    StandsAt(src, a, b, before, js, after);
    StringAt(src, a + |before|, js);
    SpacesLast(src, a + |before|, a + |before| + |Show(js)|, after, |after|);
    CodesRead(src, a + |before| + 1, js.codes, js.quote);
    LiteralIs(src, a, b, a + |before|, a + |before| + |Show(js)|);
  }

  lemma LiteralIs(src: string, a: nat, b: nat, i: nat, j: nat)
    requires b <= |src| && i == SpaceEnd(src, a, b) && i + 2 <= j && i < b && j == SolidEnd(src, i, b)
    requires Quote(src[i]) && SkipString(src, i) == j
    ensures Literal(src, a, b) == Some(Unescape(src, i + 1, j - 1))
  {
  }

  lemma NoLiteral(src: string, a: nat, b: nat, before: string, js: Js, after: string)
    requires !js.Str? && Stands(src, a, b, before, js, after)
    ensures b <= |src| && Literal(src, a, b) == None
  {
    StandsAt(src, a, b, before, js, after);
  }

  lemma ItemsRead(src: string, a: nat, b: nat, before: string, js: Js, after: string)
    requires !js.Str? && Stands(src, a, b, before, js, after)
    ensures b <= |src| && At(src, a + |before| + 1, Body(js.entries, js.tail))
    ensures SplitList(src, a, b, OpenOf(js), CloseOf(js)) == Spans(a + |before| + 1, js.entries)
  {
    StandsAt(src, a, b, before, js, after);
    BodyAt(src, a + |before|, js);
    BodySplit(src, a + |before| + 1, js.entries, js.tail, b, CloseOf(js));
  }

  /** A list's value stands in its item's span; an object's stands past the colon. */
  function ValueSpan(span: Span, e: Entry): Span {
    Span(span.start + |Lead(e)| - |e.before|, span.end)
  }

  lemma ValueStands(src: string, span: Span, e: Entry)
    requires At(src, span.start, ShowEntry(e)) && span.end == span.start + |ShowEntry(e)| && EntryOk(e)
    ensures Stands(src, ValueSpan(span, e).start, span.end, e.before, e.value, e.after)
  {
    var value := e.before + Show(e.value) + e.after;
    var head := if e.key.Some? then e.key.value.before + KeyName(e.key.value) + e.key.value.after + ":" else "";
    assert head + e.before == Lead(e);
    assert ShowEntry(e) == head + value;
    AtSplit(src, span.start, head, value);
  }

  lemma {:induction false} NameRun(src: string, i: nat, name: string)
    requires At(src, i, name) && (forall k :: 0 <= k < |name| ==> KeyChar(name[k]))
    requires i + |name| < |src| && !KeyChar(src[i + |name|])
    ensures RunEnd(src, i, KeyChar) == i + |name|
    decreases |name|
  {
    if name != "" {
      NameRun(src, i + 1, name[1..]);
    }
  }

  lemma KeyRead(src: string, i: nat, key: Key, end: nat)
    requires At(src, i, KeyName(key)) && KeyOk(key)
    requires i + |KeyName(key)| < end <= |src| && !KeyChar(src[i + |KeyName(key)|])
    ensures KeyOf(src, i, end) == Some((key.name, i + |KeyName(key)|)) && !IsSpace(src[i])
  {
    if key.quote.Some? {
      KeyStringEnd(src, i, key);
      SliceAt(src, i + 1, key.name);
    } else {
      assert src[i + 0] == key.name[0];
      AtSplit(src, i, [key.name[0]], key.name[1..]);
      assert [key.name[0]] + key.name[1..] == key.name;
      NameRun(src, i + 1, key.name[1..]);
      SliceAt(src, i, key.name);
    }
  }

  /** The parts of a key, and the colon. */
  lemma KeyAt(src: string, i: nat, key: Key, before: string)
    requires At(src, i, key.before + KeyName(key) + (key.after + ":" + before))
    ensures At(src, i, key.before) && At(src, i + |key.before|, KeyName(key))
    ensures At(src, i + |key.before| + |KeyName(key)|, key.after)
    ensures var colon := i + |key.before| + |KeyName(key)| + |key.after|; colon < |src| && src[colon] == ':'
  {
    AtSplit3(src, i, key.before, KeyName(key), key.after + ":" + before);
    AtSplit3(src, i + |key.before| + |KeyName(key)|, key.after, ":", before);
  }

  lemma EntryKeyAt(src: string, i: nat, e: Entry, key: Key)
    requires e.key == Some(key) && At(src, i, ShowEntry(e))
    ensures At(src, i, key.before) && At(src, i + |key.before|, KeyName(key))
    ensures At(src, i + |key.before| + |KeyName(key)|, key.after)
    ensures var colon := i + |key.before| + |KeyName(key)| + |key.after|;
      colon + 1 + |e.before| == i + |Lead(e)| && colon < i + |ShowEntry(e)| <= |src| && src[colon] == ':'
  {
    AtSplit3(src, i, Lead(e), Show(e.value), e.after);
    KeyAt(src, i, key, e.before);
  }

  lemma KeyFound(src: string, i: nat, key: Key, end: nat)
    requires KeyOk(key) && At(src, i, key.before) && At(src, i + |key.before|, KeyName(key))
    requires At(src, i + |key.before| + |KeyName(key)|, key.after)
    requires i + |key.before| + |KeyName(key)| + |key.after| < end <= |src|
    requires src[i + |key.before| + |KeyName(key)| + |key.after|] == ':'
    ensures SpaceEnd(src, i, end) == i + |key.before|
    ensures KeyOf(src, i + |key.before|, end) == Some((key.name, i + |key.before| + |KeyName(key)|))
    ensures SpaceEnd(src, i + |key.before| + |KeyName(key)|, end) == i + |key.before| + |KeyName(key)| + |key.after|
  {
    var at := i + |key.before|;
    var past := at + |KeyName(key)|;
    if key.after != "" { assert src[past + 0] == key.after[0]; }
    assert !KeyChar(src[past]);
    KeyRead(src, at, key, end);
    SpacesFirst(src, i, key.before, end);
    SpacesFirst(src, past, key.after, end);
  }

  lemma AddsKey(src: string, item: Span, name: string, past: nat, colon: nat, keys: map<string, Span>)
    requires item.end <= |src| && KeyOf(src, SpaceEnd(src, item.start, item.end), item.end) == Some((name, past))
    requires SpaceEnd(src, past, item.end) == colon < item.end && src[colon] == ':'
    ensures AddKey(src, item, keys) == keys[name := Span(colon + 1, item.end)]
  {
  }

  lemma KeyAdds(src: string, span: Span, e: Entry, key: Key, keys: map<string, Span>)
    requires e.key == Some(key) && KeyOk(key) && At(src, span.start, ShowEntry(e))
    requires span.end == span.start + |ShowEntry(e)|
    ensures span.end <= |src|
    ensures AddKey(src, span, keys) == keys[key.name := ValueSpan(span, e)]
  {
    hide At, KeyOk, SpaceEnd;
    EntryKeyAt(src, span.start, e, key);
    KeyFound(src, span.start, key, span.end);
    var past := span.start + |key.before| + |KeyName(key)|;
    AddsKey(src, span, key.name, past, past + |key.after|, keys);
  }

  function Names(entries: seq<Entry>): set<string> {
    if entries == [] then {}
    else (if entries[0].key.Some? then {entries[0].key.value.name} else {}) + Names(entries[1..])
  }

  ghost predicate EntryStands(src: string, span: Span, e: Entry) {
    && e.key.Some? && KeyOk(e.key.value)
    && At(src, span.start, ShowEntry(e)) && span.end == span.start + |ShowEntry(e)|
  }

  ghost predicate EntriesStand(src: string, spans: seq<Span>, entries: seq<Entry>)
    requires |spans| == |entries|
  {
    forall k :: 0 <= k < |spans| ==> EntryStands(src, spans[k], entries[k])
  }

  predicate HasKey(keys: map<string, Span>, span: Span, e: Entry) {
    e.key.Some? && e.key.value.name in keys && keys[e.key.value.name] == ValueSpan(span, e)
  }

  lemma {:induction false} KeysKept(src: string, spans: seq<Span>, entries: seq<Entry>, keys: map<string, Span>)
    requires |spans| == |entries| && InRange(spans, |src|) && EntriesStand(src, spans, entries)
    ensures AddKeys(src, spans, keys).Keys == keys.Keys + Names(entries)
    ensures forall name <- keys :: name !in Names(entries) ==> AddKeys(src, spans, keys)[name] == keys[name]
    decreases |entries|
  {
    if entries != [] {
      assert EntryStands(src, spans[0], entries[0]);
      KeyAdds(src, spans[0], entries[0], entries[0].key.value, keys);
      KeysKept(src, spans[1..], entries[1..], AddKey(src, spans[0], keys));
    }
  }

  /** Distinct keys all end up in the map, each with its own value. */
  lemma {:induction false} KeysAdded(src: string, spans: seq<Span>, entries: seq<Entry>, keys: map<string, Span>,
                                     k: nat)
    requires |spans| == |entries| && InRange(spans, |src|) && EntriesStand(src, spans, entries)
    requires DistinctKeys(entries) && k < |entries|
    ensures HasKey(AddKeys(src, spans, keys), spans[k], entries[k])
    decreases k
  {
    hide At, AddKey, KeyOk, ValueSpan, Show, ShowEntry;
    assert EntryStands(src, spans[0], entries[0]);
    var key := entries[0].key.value;
    KeyAdds(src, spans[0], entries[0], key, keys);
    if k == 0 {
      KeysKept(src, spans[1..], entries[1..], AddKey(src, spans[0], keys));
      NamesAre(entries[1..]);
      assert key.name !in Names(entries[1..]);
    } else {
      KeysAdded(src, spans[1..], entries[1..], AddKey(src, spans[0], keys), k - 1);
    }
  }

  lemma {:induction false} NamesAre(entries: seq<Entry>)
    ensures forall name <- Names(entries) :: exists k :: 0 <= k < |entries| && KeyIs(entries[k], name)
    decreases |entries|
  {
    if entries != [] {
      NamesAre(entries[1..]);
      forall name | name in Names(entries) ensures exists k :: 0 <= k < |entries| && KeyIs(entries[k], name) {
        if name in Names(entries[1..]) {
          var k :| 0 <= k < |entries[1..]| && KeyIs(entries[1..][k], name);
          assert KeyIs(entries[k + 1], name);
        } else {
          assert KeyIs(entries[0], name);
        }
      }
    }
  }

  lemma ListReads(src: string, a: nat, b: nat, js: Js)
    requires js.List? && b <= |src| && Literal(src, a, b) == None
    requires |SplitList(src, a, b, '[', ']')| == |js.entries|
    requires forall k :: 0 <= k < |js.entries| ==>
      Reads(src, SplitList(src, a, b, '[', ']')[k].start, SplitList(src, a, b, '[', ']')[k].end, js.entries[k].value)
    ensures Reads(src, a, b, js)
  {
  }

  lemma ObjReads(src: string, a: nat, b: nat, js: Js, spans: seq<Span>)
    requires js.Obj? && JsOk(js) && b <= |src| && Literal(src, a, b) == None
    requires SplitList(src, a, b, '{', '}') == spans && |spans| == |js.entries| && EntriesStand(src, spans, js.entries)
    requires forall k :: 0 <= k < |spans| ==> ValueReads(src, spans[k], js.entries[k])
    ensures Reads(src, a, b, js)
  {
    KeysKept(src, spans, js.entries, map[]);
    NamesAre(js.entries);
    var keys := ObjectKeys(src, a, b);
    forall k | 0 <= k < |js.entries|
      ensures var name := js.entries[k].key.value.name;
        && name in keys && keys[name].end <= |src|
        && Reads(src, keys[name].start, keys[name].end, js.entries[k].value)
    {
      KeysAdded(src, spans, js.entries, map[], k);
      assert ValueReads(src, spans[k], js.entries[k]);
    }
  }

  ghost predicate ValueReads(src: string, span: Span, e: Entry) {
    span.end <= |src| && Reads(src, ValueSpan(span, e).start, ValueSpan(span, e).end, e.value)
  }

  /** Whatever the document around it, a printed literal reads back as itself. */
  lemma {:induction false} ReadsBack(src: string, a: nat, b: nat, before: string, js: Js, after: string)
    requires Stands(src, a, b, before, js, after)
    ensures b <= |src| && Reads(src, a, b, js)
    decreases js, 1
  {
    hide At, Spans, EntriesStand, SplitList, Literal;
    if js.Str? {
      StringReads(src, a, b, before, js, after);
      return;
    }
    NoLiteral(src, a, b, before, js, after);
    ItemsRead(src, a, b, before, js, after);
    var i := a + |before| + 1;
    EntriesRead(src, i, js);
    if js.Obj? { ObjReads(src, a, b, js, Spans(i, js.entries)); } else { ListReads(src, a, b, js); }
  }

  lemma {:induction false} EntriesRead(src: string, i: nat, js: Js)
    requires !js.Str? && JsOk(js) && At(src, i, Body(js.entries, js.tail))
    ensures forall k :: 0 <= k < |js.entries| ==> ValueReads(src, Spans(i, js.entries)[k], js.entries[k])
    ensures js.Obj? ==> EntriesStand(src, Spans(i, js.entries), js.entries)
    decreases js, 0
  {
    forall k | 0 <= k < |js.entries|
      ensures ValueReads(src, Spans(i, js.entries)[k], js.entries[k])
      ensures js.Obj? ==> EntryStands(src, Spans(i, js.entries)[k], js.entries[k])
    {
      SpanLength(i, js.entries, k);
      EntryAt(src, i, js.entries, js.tail, k);
      assert EntryOk(js.entries[k]);
      EntryReads(src, Spans(i, js.entries)[k], js.entries[k]);
    }
  }

  lemma {:induction false} EntryReads(src: string, span: Span, e: Entry)
    requires At(src, span.start, ShowEntry(e)) && span.end == span.start + |ShowEntry(e)| && EntryOk(e)
    ensures ValueReads(src, span, e)
    decreases e, 0
  {
    ValueStands(src, span, e);
    ReadsBack(src, ValueSpan(span, e).start, span.end, e.before, e.value, e.after);
  }

  lemma {:induction false} StandsIn(pre: string, text: string, post: string)
    ensures At(pre + text + post, |pre|, text)
    decreases |text|
  {
    var src := pre + text + post;
    if text != "" {
      StandsIn(pre + [text[0]], text[1..], post);
      assert (pre + [text[0]]) + text[1..] + post == src;
      assert src[|pre|] == text[0];
    }
  }

  /** Print, then read: the literal comes back, whatever stands before and after it. */
  lemma RoundTrip(pre: string, before: string, js: Js, after: string, post: string)
    requires JsOk(js) && Blank(before) && Blank(after)
    ensures var src := pre + (before + Show(js) + after) + post;
      Reads(src, |pre|, |src| - |post|, js)
  {
    hide At, Reads, Show, JsOk;
    var src := pre + (before + Show(js) + after) + post;
    StandsIn(pre, before + Show(js) + after, post);
    ReadsBack(src, |pre|, |src| - |post|, before, js, after);
  }

  /** A printer for any text: escape what cannot stand for itself. */
  function Encode(text: string, quote: char): (codes: seq<Code>)
    requires Quote(quote)
    ensures CodesOk(quote, codes)
    ensures Decode(codes) == text
  {
    if text == "" then []
    else
      var c := text[0];
      var code :=
        if c == quote || c == '\\' || c == '$' then Escaped(c)
        else if c == '\n' then Escaped('n')
        else Plain(c);
      [code] + Encode(text[1..], quote)
  }
}
