/** Which verdict the model's last word gets, said of the object it parses to. */
module VerdictFacts {
  import opened Options
  import opened Strings
  import opened Evidence
  import opened Grounding

  predicate Field(fields: Fields, key: string, value: Json) { key in fields && fields[key] == value }

  predicate Wordy(s: string) { exists k :: 0 <= k < |s| && !IsSpace(s[k]) }

  // --- Addresses ----------------------------------------------------------------------------------

  /** The site's address ends at `n`: only slashes follow, and none stands before. */
  predicate SiteEnds(base: string, n: nat) {
    n <= |base| && (n > 0 ==> base[n - 1] != '/') && forall k :: n <= k < |base| ==> base[k] == '/'
  }

  /** The site itself, or something past a slash after it. */
  ghost predicate OnSite(url: string, base: string) {
    exists n: nat :: SiteEnds(base, n) && n <= |url| && url[..n] == base[..n] && (|url| == n || url[n] == '/')
  }

  lemma {:induction false} Trimmed(base: string)
    ensures |TrimSlashes(base)| <= |base| && SiteEnds(base, |TrimSlashes(base)|)
    ensures TrimSlashes(base) == base[..|TrimSlashes(base)|]
    decreases |base|
  {
    if base != "" && base[|base| - 1] == '/' {
      var rest := base[..|base| - 1];
      Trimmed(rest);
      var n := |TrimSlashes(rest)|;
      forall k | n <= k < |base| ensures base[k] == '/' {
        if k < |base| - 1 { assert rest[k] == base[k]; }
      }
      assert rest[..n] == base[..n] && (n > 0 ==> rest[n - 1] == base[n - 1]);
    }
  }

  lemma OneEnd(base: string, m: nat, n: nat)
    requires SiteEnds(base, m) && SiteEnds(base, n)
    ensures m == n
  {
  }

  lemma PublicIff(url: string, base: string)
    ensures Public(url, base) <==> OnSite(url, base)
  {
    var site := TrimSlashes(base);
    Trimmed(base);
    var n := |site|;
    if OnSite(url, base) {
      var m: nat :| SiteEnds(base, m) && m <= |url| && url[..m] == base[..m] && (|url| == m || url[m] == '/');
      OneEnd(base, m, n);
      if |url| == m {
        assert url == url[..m];
      } else {
        assert url[..n + 1] == site + "/";
      }
    }
    if Public(url, base) {
      assert url[..n] == site && (|url| == n || url[n] == '/');
    }
  }

  // --- Pictures -----------------------------------------------------------------------------------

  function Lower(c: char): char { if 'A' <= c <= 'Z' then (c as int + 32) as char else c }

  predicate Starts(url: string, prefix: string) {
    |prefix| <= |url| && forall k :: 0 <= k < |prefix| ==> Lower(url[k]) == prefix[k]
  }

  predicate OnTheWeb(url: string) { Starts(url, "http://") || Starts(url, "https://") }

  lemma WebIff(url: string)
    ensures WebUrl(url) <==> OnTheWeb(url)
  {
    if |url| >= 7 && Starts(url, "http://") {
      assert Lower(url[0]) == 'h' && Lower(url[1]) == 't' && Lower(url[2]) == 't' && Lower(url[3]) == 'p';
      assert Lower(url[4]) == ':' && Lower(url[5]) == '/' && Lower(url[6]) == '/';
    }
    if |url| >= 8 && Starts(url, "https://") {
      assert Lower(url[0]) == 'h' && Lower(url[1]) == 't' && Lower(url[2]) == 't' && Lower(url[3]) == 'p';
      assert Lower(url[4]) == 's' && Lower(url[5]) == ':' && Lower(url[6]) == '/' && Lower(url[7]) == '/';
    }
  }

  /** A picture of the evidence `id`, and what `raw` says of it. */
  datatype Picture = Picture(id: string, raw: Fields)

  predicate Showing(p: Picture) { "url" in p.raw && p.raw["url"].Str? && OnTheWeb(p.raw["url"].s) }

  /** A detail is shown when it is a text or a number. */
  predicate Detail(shown: Json, raw: Fields, key: string) {
    if key in raw && (raw[key].Str? || raw[key].Int?) then shown == raw[key] else shown == Null
  }

  predicate Depicts(image: Image, p: Picture) {
    && image.evidenceId == p.id && Field(p.raw, "url", Str(image.url))
    && Detail(image.alt, p.raw, "alt") && Detail(image.caption, p.raw, "caption")
    && Detail(image.ordinal, p.raw, "ordinal") && Detail(image.anchor, p.raw, "heading_anchor")
  }

  function PicturesOf(id: string, raws: seq<Fields>): (all: seq<Picture>)
    ensures |all| == |raws| && forall k :: 0 <= k < |all| ==> all[k] == Picture(id, raws[k])
  {
    seq(|raws|, k requires 0 <= k < |raws| => Picture(id, raws[k]))
  }

  /** All pictures of the cited evidence, id after id. */
  function Pictures(ids: seq<string>, g: Gathered): seq<Picture> {
    if ids == [] then []
    else PicturesOf(ids[0], if ids[0] in g.images then g.images[ids[0]] else []) + Pictures(ids[1..], g)
  }

  /** No picture before this one that can be shown has its address. */
  predicate NewAddress(all: seq<Picture>, k: nat)
    requires k < |all|
  {
    forall l :: 0 <= l < k && Showing(all[l]) ==> all[l].raw["url"] != Get(all[k].raw, "url")
  }

  predicate Ascending(at: seq<nat>) {
    forall j, k :: 0 <= j < k < |at| ==> at[j] < at[k]
  }

  /** The images are the pictures that can be shown, each address once, where it is first. */
  ghost predicate FirstPictures(images: seq<Image>, all: seq<Picture>, at: seq<nat>) {
    && |at| == |images| && Ascending(at)
    && (forall j :: 0 <= j < |at| ==>
          at[j] < |all| && Showing(all[at[j]]) && NewAddress(all, at[j]) && Depicts(images[j], all[at[j]]))
    && forall k: nat :: k < |all| && Showing(all[k]) && NewAddress(all, k) ==> k in at
  }

  function Walk(images: seq<Image>, all: seq<Picture>): seq<Image>
    decreases |all|
  {
    if all == [] then images else Walk(WithImage(images, all[0].id, all[0].raw), all[1..])
  }

  lemma {:induction false} WalkOn(images: seq<Image>, a: seq<Picture>, b: seq<Picture>)
    ensures Walk(images, a + b) == Walk(Walk(images, a), b)
    decreases |a|
  {
    if a == [] {
      assert a + b == b;
    } else {
      assert (a + b)[0] == a[0] && (a + b)[1..] == a[1..] + b;
      WalkOn(WithImage(images, a[0].id, a[0].raw), a[1..], b);
    }
  }

  lemma {:induction false} RawsWalk(images: seq<Image>, id: string, raws: seq<Fields>)
    ensures WithImages(images, id, raws) == Walk(images, PicturesOf(id, raws))
    decreases |raws|
  {
    hide WithImage;
    if raws != [] {
      assert PicturesOf(id, raws)[1..] == PicturesOf(id, raws[1..]);
      RawsWalk(WithImage(images, id, raws[0]), id, raws[1..]);
    }
  }

  lemma {:induction false} ImagesWalk(images: seq<Image>, ids: seq<string>, g: Gathered)
    ensures ImagesFrom(images, ids, g) == Walk(images, Pictures(ids, g))
    decreases |ids|
  {
    hide WithImages;
    if ids != [] {
      var raws := RawImages(g, ids[0]);
      var first := PicturesOf(ids[0], raws);
      RawsWalk(images, ids[0], raws);
      WalkOn(images, first, Pictures(ids[1..], g));
      ImagesWalk(WithImages(images, ids[0], raws), ids[1..], g);
    }
  }

  /** The addresses shown are those of the pictures that can be. */
  ghost predicate SameAddresses(images: seq<Image>, all: seq<Picture>) {
    forall url ::
      url in Urls(images) <==> exists l :: 0 <= l < |all| && Showing(all[l]) && all[l].raw["url"] == Str(url)
  }

  lemma ShowableIff(p: Picture)
    ensures Showable(p.raw) <==> Showing(p)
    ensures Showable(p.raw) ==> Depicts(ImageOf(p.id, p.raw), p)
  {
    if "url" in p.raw && p.raw["url"].Str? { WebIff(p.raw["url"].s); }
  }

  lemma WalkOne(images: seq<Image>, all: seq<Picture>, last: Picture)
    ensures Walk(images, all + [last]) == WithImage(Walk(images, all), last.id, last.raw)
  {
    hide WithImage;
    WalkOn(images, all, [last]);
  }

  lemma NewAddressKept(all: seq<Picture>, last: Picture, k: nat)
    requires k < |all|
    ensures NewAddress(all + [last], k) == NewAddress(all, k)
  {
    var more := all + [last];
    hide Showing;
    assert forall l :: 0 <= l < |all| ==> more[l] == all[l];
  }

  lemma FirstPicturesKept(images: seq<Image>, all: seq<Picture>, at: seq<nat>, last: Picture)
    requires FirstPictures(images, all, at)
    requires !(Showing(last) && NewAddress(all + [last], |all|))
    ensures FirstPictures(images, all + [last], at)
  {
    hide Showing, NewAddress, Depicts;
    var more := all + [last];
    forall j | 0 <= j < |at|
      ensures at[j] < |more| && Showing(more[at[j]]) && NewAddress(more, at[j]) && Depicts(images[j], more[at[j]])
    {
      NewAddressKept(all, last, at[j]);
    }
    forall k: nat | k < |more| && Showing(more[k]) && NewAddress(more, k) ensures k in at {
      if k < |all| { NewAddressKept(all, last, k); }
    }
  }

  lemma FirstPicturesMore(images: seq<Image>, all: seq<Picture>, at: seq<nat>, last: Picture, image: Image)
    requires FirstPictures(images, all, at)
    requires Showing(last) && NewAddress(all + [last], |all|) && Depicts(image, last)
    ensures FirstPictures(images + [image], all + [last], at + [|all|])
  {
    hide Showing, NewAddress, Depicts;
    var more, at' := all + [last], at + [|all|];
    forall j | 0 <= j < |at'|
      ensures at'[j] < |more| && Showing(more[at'[j]]) && NewAddress(more, at'[j])
      ensures Depicts((images + [image])[j], more[at'[j]])
    {
      if j < |at| { NewAddressKept(all, last, at[j]); }
    }
    forall k: nat | k < |more| && Showing(more[k]) && NewAddress(more, k) ensures k in at' {
      if k < |all| { NewAddressKept(all, last, k); }
    }
  }

  lemma AddressesMore(images: seq<Image>, all: seq<Picture>, last: Picture)
    requires SameAddresses(images, all)
    ensures SameAddresses(WithImage(images, last.id, last.raw), all + [last])
    ensures Showing(last) ==>
      (Get(last.raw, "url").s !in Urls(images) <==> NewAddress(all + [last], |all|))
  {
    hide OnTheWeb, WebUrl;
    ShowableIff(last);
    var more, out := all + [last], WithImage(images, last.id, last.raw);
    assert forall l :: 0 <= l < |all| ==> more[l] == all[l];
    forall url ensures url in Urls(out) <==>
      exists l :: 0 <= l < |more| && Showing(more[l]) && more[l].raw["url"] == Str(url)
    {
      assert url in Urls(out) <==> url in Urls(images) || (Showing(last) && last.raw["url"] == Str(url)) by {
        UrlsMore(images, last, url);
      }
      if url in Urls(images) {
        var l :| 0 <= l < |all| && Showing(all[l]) && all[l].raw["url"] == Str(url);
        assert Showing(more[l]);
      }
      assert more[|all|] == last;
    }
  }

  lemma UrlsMore(images: seq<Image>, last: Picture, url: string)
    ensures url in Urls(WithImage(images, last.id, last.raw)) <==>
      url in Urls(images) || (Showing(last) && last.raw["url"] == Str(url))
  {
    hide OnTheWeb, WebUrl;
    ShowableIff(last);
    var image := if Showable(last.raw) then [ImageOf(last.id, last.raw)] else [];
    assert Urls(images + image) == Urls(images) + Urls(image) by {
      forall i | i in images + image ensures i in images || i in image { }
    }
  }

  lemma {:induction false} ImagePositions(all: seq<Picture>) returns (at: seq<nat>)
    ensures FirstPictures(Walk([], all), all, at) && SameAddresses(Walk([], all), all)
    decreases |all|
  {
    if all == [] {
      at := [];
    } else {
      var rest, last := all[..|all| - 1], all[|all| - 1];
      assert all == rest + [last];
      hide FirstPictures, SameAddresses, NewAddress, Depicts, Showing;
      at := ImagePositions(rest);
      var images := Walk([], rest);
      WalkOne([], rest, last);
      AddressesMore(images, rest, last);
      ShowableIff(last);
      if Showing(last) && NewAddress(all, |rest|) {
        FirstPicturesMore(images, rest, at, last, ImageOf(last.id, last.raw));
        at := at + [|rest|];
      } else {
        FirstPicturesKept(images, rest, at, last);
      }
    }
  }

  // --- Citations ----------------------------------------------------------------------------------

  /** The citations are those of the listed ids, each once, where it is listed first. */
  ghost predicate FirstListed(citations: seq<Citation>, ids: seq<string>, g: Gathered, at: seq<nat>) {
    && |at| == |citations| && Ascending(at)
    && (forall j :: 0 <= j < |at| ==>
          at[j] < |ids| && ids[at[j]] !in ids[..at[j]] && Cited(citations[j], g, ids[at[j]]))
    && forall k: nat :: k < |ids| && ids[k] !in ids[..k] ==> k in at
  }

  predicate Cited(c: Citation, g: Gathered, id: string) { id in g.citations && c == g.citations[id] }

  /** The same of what is listed from `i` on, when what stands before is `seen`. */
  ghost predicate ListedFrom(citations: seq<Citation>, ids: seq<string>, i: nat, g: Gathered, at: seq<nat>) {
    && |at| == |citations| && Ascending(at)
    && (forall j :: 0 <= j < |at| ==>
          i <= at[j] < |ids| && ids[at[j]] !in ids[..at[j]] && Cited(citations[j], g, ids[at[j]]))
    && forall k: nat :: i <= k < |ids| && ids[k] !in ids[..k] ==> k in at
  }

  lemma ListedMore(citations: seq<Citation>, ids: seq<string>, i: nat, g: Gathered, at: seq<nat>)
    requires i < |ids| && ids[i] !in ids[..i] && ids[i] in g.citations && ListedFrom(citations, ids, i + 1, g, at)
    ensures ListedFrom([g.citations[ids[i]]] + citations, ids, i, g, [i] + at)
  {
    assert Cited(g.citations[ids[i]], g, ids[i]);
    hide Cited;
    var at', citations' := [i] + at, [g.citations[ids[i]]] + citations;
    forall j | 0 <= j < |at'|
      ensures i <= at'[j] < |ids| && ids[at'[j]] !in ids[..at'[j]] && Cited(citations'[j], g, ids[at'[j]])
    {
      if j > 0 { assert at'[j] == at[j - 1] && citations'[j] == citations[j - 1]; }
    }
    assert forall k: nat :: k in at ==> k in at';
  }

  lemma ListedLess(citations: seq<Citation>, ids: seq<string>, i: nat, g: Gathered, at: seq<nat>)
    requires i < |ids| && ids[i] in ids[..i] && ListedFrom(citations, ids, i + 1, g, at)
    ensures ListedFrom(citations, ids, i, g, at)
  {
    hide Cited;
  }

  lemma {:induction false} CitationPositions(ids: seq<string>, i: nat, seen: set<string>, g: Gathered)
    returns (at: seq<nat>)
    requires i <= |ids| && (forall id <- ids :: id in g.citations)
    requires forall id :: id in seen <==> id in ids[..i]
    ensures ListedFrom(CitationsFrom(ids[i..], seen, g), ids, i, g, at)
    decreases |ids| - i
  {
    if i == |ids| {
      at := [];
    } else {
      hide CitationsFrom, ListedFrom;
      CiteStep(ids, i, seen, [], g);
      var rest := CitationsFrom(ids[i + 1..], if ids[i] in seen then seen else seen + {ids[i]}, g);
      assert [] + CitationsFrom(ids[i..], seen, g) == CitationsFrom(ids[i..], seen, g);
      assert ids[..i + 1] == ids[..i] + [ids[i]];
      if ids[i] in seen {
        at := CitationPositions(ids, i + 1, seen, g);
        assert [] + rest == rest;
        ListedLess(rest, ids, i, g, at);
      } else {
        at := CitationPositions(ids, i + 1, seen + {ids[i]}, g);
        ListedMore(rest, ids, i, g, at);
        assert [] + [g.citations[ids[i]]] == [g.citations[ids[i]]];
        at := [i] + at;
      }
    }
  }

  // --- The object -----------------------------------------------------------------------------------

  /** What the model's last word is, when it is the text of an object. */
  function Said(raw: Json, lib: Library): Option<Fields> {
    if raw.Str? && lib.parse(raw.s).Some? && lib.parse(raw.s).value.Obj? then Some(lib.parse(raw.s).value.fields)
    else None
  }

  // --- Answers ------------------------------------------------------------------------------------

  /** The object answers, and every id it cites is in the evidence, at an address of the site. */
  ghost predicate Answers(parsed: Fields, g: Gathered, base: string) {
    && Field(parsed, "response_type", Str("answer"))
    && "answer" in parsed && parsed["answer"].Str? && Wordy(parsed["answer"].s)
    && "citation_ids" in parsed && parsed["citation_ids"].Arr? && parsed["citation_ids"].items != []
    && forall item <- parsed["citation_ids"].items ::
         item.Str? && item.s in g.citations && OnSite(g.citations[item.s].url, base)
  }

  lemma CitedIs(c: Citation, g: Gathered, id: string)
    requires Cited(c, g, id)
    ensures id in g.citations && c == g.citations[id]
  {
  }

  lemma AllPublicIff(ids: seq<string>, g: Gathered, base: string)
    requires forall id <- ids :: id in g.citations
    ensures AllPublic(CitationsFrom(ids, {}, g), base) <==> forall id <- ids :: OnSite(g.citations[id].url, base)
  {
    hide OnSite, Public, CitationsFrom, Cited;
    var citations := CitationsFrom(ids, {}, g);
    assert ids[0..] == ids;
    var at := CitationPositions(ids, 0, {}, g);
    forall url ensures Public(url, base) <==> OnSite(url, base) { PublicIff(url, base); }
    if AllPublic(citations, base) {
      forall id | id in ids ensures OnSite(g.citations[id].url, base) {
        var k := FirstAt(ids, id);
        var j :| 0 <= j < |at| && at[j] == k;
        assert Cited(citations[j], g, id);
        CitedIs(citations[j], g, id);
      }
    }
    if forall id <- ids :: OnSite(g.citations[id].url, base) {
      forall j | 0 <= j < |citations| ensures Public(citations[j].url, base) {
        assert ids[at[j]] in ids;
        CitedIs(citations[j], g, ids[at[j]]);
      }
    }
  }

  lemma {:induction false} FirstAt(ids: seq<string>, id: string) returns (k: nat)
    requires id in ids
    ensures k < |ids| && ids[k] == id && id !in ids[..k]
    decreases |ids|
  {
    var n := |ids| - 1;
    if id in ids[..n] {
      k := FirstAt(ids[..n], id);
      assert ids[..n][..k] == ids[..k];
    } else {
      k := n;
    }
  }

  lemma WordyIff(s: string)
    ensures Strip(s) != "" <==> Wordy(s)
  {
    hide IsSpace;
  }

  function Listed(parsed: Fields): (ids: seq<string>)
    requires "citation_ids" in parsed && parsed["citation_ids"].Arr?
    requires forall item <- parsed["citation_ids"].items :: item.Str?
    ensures |ids| == |parsed["citation_ids"].items|
    ensures forall k :: 0 <= k < |ids| ==> Str(ids[k]) == parsed["citation_ids"].items[k]
  {
    var items := parsed["citation_ids"].items;
    assert forall k :: 0 <= k < |items| ==> items[k] in items;
    seq(|items|, k requires 0 <= k < |items| => items[k].s)
  }

  lemma AnswerIff(parsed: Fields, g: Gathered, base: string)
    ensures AnswerOf(parsed, g, base).Answer? <==> Answers(parsed, g, base)
    ensures Answers(parsed, g, base) ==>
      AnswerOf(parsed, g, base)
      == Answer(parsed["answer"].s, CitationsFrom(Listed(parsed), {}, g), ImagesFrom([], Listed(parsed), g))
  {
    hide OnSite, AllPublic, CitationsFrom, ImagesFrom, Strip, Wordy;
    var text, ids := Get(parsed, "answer"), Get(parsed, "citation_ids");
    if text.Str? { WordyIff(text.s); }
    if ids.Arr? && (forall k :: 0 <= k < |ids.items| ==> ids.items[k].Str?) {
      var named := Named(ids.items);
      assert forall item <- ids.items :: item.Str?;
      assert named == Listed(parsed);
      assert forall item <- ids.items :: item.s in named by {
        forall item | item in ids.items ensures item.s in named {
          var k :| 0 <= k < |ids.items| && ids.items[k] == item;
          assert named[k] == item.s;
        }
      }
      assert forall id <- named :: Str(id) in ids.items;
      if forall id <- named :: id in g.citations {
        AllPublicIff(named, g, base);
      }
    }
  }

  /** Something is given for the field: not null, false, zero or empty. */
  predicate Given(fields: Fields, field: string)
    ensures Given(fields, field) ==> field in fields
  {
    && field in fields
    && fields[field] !in {Null, Bool(false), Int(0), Float(0.0), Str(""), Arr([]), Obj(map[])}
  }

  /** Two pieces of evidence give values for the field that differ once normalised. */
  ghost predicate Divided(field: string, metadata: map<string, Fields>, lib: Library) {
    exists a, b :: a in metadata && b in metadata && Given(metadata[a], field) && Given(metadata[b], field)
      && lib.normalize(lib.render(metadata[a][field])) != lib.normalize(lib.render(metadata[b][field]))
  }

  /** The object asks: a question that is not blank, for a field that it names. */
  predicate Clarifies(parsed: Fields)
    ensures Clarifies(parsed) ==> "clarification_question" in parsed && parsed["clarification_question"].Str?
    ensures Clarifies(parsed) ==> "required_field" in parsed && parsed["required_field"].Str?
  {
    && Field(parsed, "response_type", Str("clarification"))
    && "clarification_question" in parsed && parsed["clarification_question"].Str?
    && Wordy(parsed["clarification_question"].s)
    && "required_field" in parsed && parsed["required_field"].Str?
  }

  /** And the evidence is divided over that field. */
  ghost predicate Asks(parsed: Fields, g: Gathered, lib: Library) {
    Clarifies(parsed) && Divided(parsed["required_field"].s, g.metadata, lib)
  }

  lemma PartsIff(raw: Json, lib: Library)
    ensures var parts, said := ClarificationParts(raw, lib), Said(raw, lib);
      && (parts.Some? <==> said.Some? && Clarifies(said.value))
      && (parts.Some? ==>
            parts.value == (said.value["clarification_question"].s, said.value["required_field"].s))
  {
    var said := Said(raw, lib);
    if said.Some? && Get(said.value, "clarification_question").Str? {
      hide Strip, Wordy;
      WordyIff(Get(said.value, "clarification_question").s);
    }
  }

  lemma GivenIff(fields: Fields, field: string)
    ensures Truthy(Get(fields, field)) <==> Given(fields, field)
  {
  }

  lemma DividedIff(field: string, metadata: map<string, Fields>, lib: Library)
    ensures LoadBearing(field, metadata, lib) <==> Divided(field, metadata, lib)
  {
    hide Truthy, Given;
    forall id | id in metadata ensures Truthy(Get(metadata[id], field)) <==> Given(metadata[id], field) {
      GivenIff(metadata[id], field);
    }
    if LoadBearing(field, metadata, lib) {
      TwoAlternatives(field, metadata, lib);
    }
    if Divided(field, metadata, lib) {
      Alternate(field, metadata, lib);
    }
  }

  lemma Alternate(field: string, metadata: map<string, Fields>, lib: Library)
    requires Divided(field, metadata, lib)
    requires forall id | id in metadata :: Truthy(Get(metadata[id], field)) <==> Given(metadata[id], field)
    ensures LoadBearing(field, metadata, lib)
  {
    hide Truthy, Given;
    var all := Alternatives(field, metadata, lib);
    var a, b :| a in metadata && b in metadata && Given(metadata[a], field) && Given(metadata[b], field)
      && lib.normalize(lib.render(metadata[a][field])) != lib.normalize(lib.render(metadata[b][field]));
    var x, y := lib.normalize(lib.render(metadata[a][field])), lib.normalize(lib.render(metadata[b][field]));
    assert Get(metadata[a], field) == metadata[a][field] && Get(metadata[b], field) == metadata[b][field];
    assert x in all && y in all;
    Smaller({x, y}, all);
  }

  lemma {:induction false} Smaller(a: set<string>, b: set<string>)
    requires a <= b
    ensures |a| <= |b|
    decreases a
  {
    if a != {} {
      var x :| x in a;
      Smaller(a - {x}, b - {x});
    }
  }

  // --- Every verdict ------------------------------------------------------------------------------

  ghost predicate AnswerGiven(v: Verdict, parsed: Fields, g: Gathered, base: string)
    requires Answers(parsed, g, base)
  {
    && v.Answer? && v.text == parsed["answer"].s
    && (exists at :: FirstListed(v.citations, Listed(parsed), g, at))
    && (exists at :: FirstPictures(v.images, Pictures(Listed(parsed), g), at))
  }

  /** The verdict is the answer exactly when the object answers, the question exactly when it asks and
      may, and otherwise nothing is said; and what is said is what the object and the evidence say. */
  lemma VerdictIff(raw: Json, g: Gathered, base: string, allowClarification: bool, lib: Library)
    ensures var v, said := VerdictOf(raw, g, base, allowClarification, lib), Said(raw, lib);
      && (v.Answer? <==> said.Some? && Answers(said.value, g, base))
      && (v.Answer? ==> AnswerGiven(v, said.value, g, base))
      && (v.Ask? <==> said.Some? && allowClarification && Asks(said.value, g, lib))
      && (v.Ask? ==>
            v.question == said.value["clarification_question"].s && v.field == said.value["required_field"].s)
  {
    var said := Said(raw, lib);
    if said.Some? {
      AskIff(raw, said.value, g, base, allowClarification, lib);
      AnswerVerdict(raw, said.value, g, base, allowClarification, lib);
    }
  }

  lemma AskIff(raw: Json, parsed: Fields, g: Gathered, base: string, allowClarification: bool, lib: Library)
    requires Said(raw, lib) == Some(parsed)
    ensures var v := VerdictOf(raw, g, base, allowClarification, lib);
      && (v.Ask? <==> allowClarification && Asks(parsed, g, lib))
      && (v.Ask? ==> v.question == parsed["clarification_question"].s && v.field == parsed["required_field"].s)
  {
    hide Clarifies, LoadBearing, Divided, AnswerOf, ClarificationParts;
    PartsIff(raw, lib);
    if Clarifies(parsed) {
      ClarifiesSays(parsed);
      DividedIff(parsed["required_field"].s, g.metadata, lib);
    }
  }

  lemma ClarifiesSays(parsed: Fields)
    requires Clarifies(parsed)
    ensures Get(parsed, "response_type") == Str("clarification")
  {
  }

  lemma AnswerVerdict(raw: Json, parsed: Fields, g: Gathered, base: string, allowClarification: bool, lib: Library)
    requires Said(raw, lib) == Some(parsed)
    ensures var v := VerdictOf(raw, g, base, allowClarification, lib);
      && (v.Answer? <==> Answers(parsed, g, base))
      && (v.Answer? ==> AnswerGiven(v, parsed, g, base))
  {
    hide ClarificationParts, LoadBearing, AnswerOf, CitationsFrom, ImagesFrom, OnSite, Wordy, FirstListed;
    hide FirstPictures, Pictures;
    AnswerIff(parsed, g, base);
    if Answers(parsed, g, base) {
      var ids := Listed(parsed);
      ListedThere(parsed, g, base);
      CitesFirst(ids, g);
      ImagesWalk([], ids, g);
      var at := ImagePositions(Pictures(ids, g));
    }
  }

  lemma ListedThere(parsed: Fields, g: Gathered, base: string)
    requires Answers(parsed, g, base)
    ensures forall id <- Listed(parsed) :: id in g.citations
  {
    hide OnSite, Wordy;
    var items := parsed["citation_ids"].items;
    forall id | id in Listed(parsed) ensures id in g.citations {
      var k :| 0 <= k < |items| && Listed(parsed)[k] == id;
      assert items[k] in items;
    }
  }

  lemma CitesFirst(ids: seq<string>, g: Gathered)
    requires forall id <- ids :: id in g.citations
    ensures exists at :: FirstListed(CitationsFrom(ids, {}, g), ids, g, at)
  {
    hide CitationsFrom;
    assert ids[0..] == ids;
    var at := CitationPositions(ids, 0, {}, g);
    assert FirstListed(CitationsFrom(ids, {}, g), ids, g, at);
  }
}
