/** What the agent makes of the model's last word: an answer with its citations, a question back, or
    an abstention. */
module Grounding {
  import opened Options
  import opened Strings
  import opened Evidence

  /** An image beside an answer: where it comes from and what else the evidence says of it. */
  datatype Image = Image(evidenceId: string, url: string, alt: Json, caption: Json, ordinal: Json, anchor: Json)

  datatype Verdict =
    | Abstain
    | Ask(question: string, field: string)
    | Answer(text: string, citations: seq<Citation>, images: seq<Image>)

  // --- Images -----------------------------------------------------------------------------------------

  predicate Letter(c: char, lower: char, upper: char) { c == lower || c == upper }

  /** url.lower() starts with http:// or https://. */
  predicate WebUrl(url: string) {
    && |url| >= 4
    && Letter(url[0], 'h', 'H') && Letter(url[1], 't', 'T') && Letter(url[2], 't', 'T') && Letter(url[3], 'p', 'P')
    && (Three(url, 4, ':', '/', '/') || (|url| > 4 && Letter(url[4], 's', 'S') && Three(url, 5, ':', '/', '/')))
  }

  predicate Showable(raw: Fields) { Get(raw, "url").Str? && WebUrl(Get(raw, "url").s) }

  function Plain(j: Json): Json { if j.Str? || j.Int? then j else Null }

  function ImageOf(id: string, raw: Fields): Image
    requires Showable(raw)
  {
    Image(id, Get(raw, "url").s, Plain(Get(raw, "alt")), Plain(Get(raw, "caption")),
          Plain(Get(raw, "ordinal")), Plain(Get(raw, "heading_anchor")))
  }

  function Urls(images: seq<Image>): set<string> { set i | i in images :: i.url }

  function WithImage(images: seq<Image>, id: string, raw: Fields): seq<Image> {
    if Showable(raw) && Get(raw, "url").s !in Urls(images) then images + [ImageOf(id, raw)] else images
  }

  function WithImages(images: seq<Image>, id: string, raws: seq<Fields>): seq<Image>
    decreases |raws|
  {
    if raws == [] then images else WithImages(WithImage(images, id, raws[0]), id, raws[1..])
  }

  function RawImages(g: Gathered, id: string): seq<Fields> { if id in g.images then g.images[id] else [] }

  function ImagesFrom(images: seq<Image>, ids: seq<string>, g: Gathered): seq<Image>
    decreases |ids|
  {
    if ids == [] then images else ImagesFrom(WithImages(images, ids[0], RawImages(g, ids[0])), ids[1..], g)
  }

  method CitedImages(ids: seq<string>, g: Gathered) returns (images: seq<Image>)
    ensures images == ImagesFrom([], ids, g)
  {
    hide Showable, ImageOf, RawImages;
    images := [];
    var seenUrls: set<string> := {};
    assert ids[0..] == ids;
    for i := 0 to |ids|
      invariant seenUrls == Urls(images)
      invariant ImagesFrom(images, ids[i..], g) == ImagesFrom([], ids, g)
    {
      assert ids[i..][0] == ids[i] && ids[i..][1..] == ids[i + 1..];
      var raws := RawImages(g, ids[i]);
      ghost var before := images;
      assert raws[0..] == raws;
      for k := 0 to |raws|
        invariant seenUrls == Urls(images)
        invariant WithImages(images, ids[i], raws[k..]) == WithImages(before, ids[i], raws)
      {
        assert raws[k..][0] == raws[k] && raws[k..][1..] == raws[k + 1..];
        images, seenUrls := AddImage(images, seenUrls, ids[i], raws[k]);
      }
    }
  }

  method AddImage(images: seq<Image>, seenUrls: set<string>, id: string, raw: Fields)
    returns (out: seq<Image>, seen: set<string>)
    requires seenUrls == Urls(images)
    ensures out == WithImage(images, id, raw) && seen == Urls(out)
  {
    out, seen := images, seenUrls;
    if Showable(raw) {
      var url := Get(raw, "url").s;
      if url !in seenUrls {
        out, seen := images + [ImageOf(id, raw)], seenUrls + {url};
        assert Urls(out) == Urls(images) + {url};
      }
    }
  }

  // --- Clarifications ---------------------------------------------------------------------------------

  function ClarificationParts(raw: Json, lib: Library): Option<(string, string)> {
    if !raw.Str? || lib.parse(raw.s).None? || !lib.parse(raw.s).value.Obj? then None
    else
      var parsed := lib.parse(raw.s).value.fields;
      var question, field := Get(parsed, "clarification_question"), Get(parsed, "required_field");
      if Get(parsed, "response_type") != Str("clarification") then None
      else if !question.Str? || Strip(question.s) == "" || !field.Str? then None
      else Some((question.s, field.s))
  }

  /** The normalised values the evidence gives for `field`. */
  function Alternatives(field: string, metadata: map<string, Fields>, lib: Library): set<string> {
    set id | id in metadata && Truthy(Get(metadata[id], field)) :: lib.normalize(lib.render(Get(metadata[id], field)))
  }

  predicate LoadBearing(field: string, metadata: map<string, Fields>, lib: Library) {
    |Alternatives(field, metadata, lib)| >= 2
  }

  // --- Answers ----------------------------------------------------------------------------------------

  function TrimSlashes(s: string): string {
    if s != "" && s[|s| - 1] == '/' then TrimSlashes(s[..|s| - 1]) else s
  }

  /** The public documentation site, or a page under it. */
  predicate Public(url: string, base: string) {
    url == TrimSlashes(base) || TrimSlashes(base) + "/" <= url
  }

  function Named(items: seq<Json>): seq<string>
    requires forall k :: 0 <= k < |items| ==> items[k].Str?
  {
    seq(|items|, k requires 0 <= k < |items| => items[k].s)
  }

  /** The citations of `ids`, each once, in order, without those in `seen`. */
  function CitationsFrom(ids: seq<string>, seen: set<string>, g: Gathered): seq<Citation>
    requires forall id :: id in ids ==> id in g.citations
    decreases |ids|
  {
    if ids == [] then []
    else if ids[0] in seen then CitationsFrom(ids[1..], seen, g)
    else [g.citations[ids[0]]] + CitationsFrom(ids[1..], seen + {ids[0]}, g)
  }

  predicate AllPublic(citations: seq<Citation>, base: string) {
    forall k :: 0 <= k < |citations| ==> Public(citations[k].url, base)
  }

  function AnswerOf(parsed: Fields, g: Gathered, base: string): (v: Verdict)
    ensures !v.Ask?
  {
    var text, ids := Get(parsed, "answer"), Get(parsed, "citation_ids");
    if Get(parsed, "response_type") != Str("answer") then Abstain
    else if !text.Str? || Strip(text.s) == "" then Abstain
    else if !ids.Arr? || !(forall k :: 0 <= k < |ids.items| ==> ids.items[k].Str?) then Abstain
    else
      var named := Named(ids.items);
      if named == [] || !(forall id :: id in named ==> id in g.citations) then Abstain
      else
        var citations := CitationsFrom(named, {}, g);
        if AllPublic(citations, base) then Answer(text.s, citations, ImagesFrom([], named, g)) else Abstain
  }

  function VerdictOf(raw: Json, g: Gathered, base: string, allowClarification: bool, lib: Library): Verdict {
    if !raw.Str? || lib.parse(raw.s).None? || !lib.parse(raw.s).value.Obj? then Abstain
    else
      var parsed := lib.parse(raw.s).value.fields;
      if Get(parsed, "response_type") == Str("clarification") then
        var parts := ClarificationParts(raw, lib);
        if allowClarification && parts.Some? && LoadBearing(parts.value.1, g.metadata, lib) then
          Ask(parts.value.0, parts.value.1)
        else Abstain
      else AnswerOf(parsed, g, base)
  }

  // --- The loop over citations --------------------------------------------------------------------------

  lemma {:induction false} PublicSoFar(citations: seq<Citation>, rest: seq<Citation>, base: string)
    ensures AllPublic(citations + rest, base) <==> AllPublic(citations, base) && AllPublic(rest, base)
  {
    hide Public;
    var all := citations + rest;
    if AllPublic(all, base) {
      assert forall k :: 0 <= k < |citations| ==> citations[k] == all[k];
      assert forall k :: 0 <= k < |rest| ==> rest[k] == all[|citations| + k];
    }
  }

  /** The citations of the answer, or nothing as soon as one is not public. */
  method Cite(ids: seq<string>, g: Gathered, base: string) returns (citations: Option<seq<Citation>>)
    requires forall id :: id in ids ==> id in g.citations
    ensures citations == if AllPublic(CitationsFrom(ids, {}, g), base) then Some(CitationsFrom(ids, {}, g)) else None
  {
    hide Public, CitationsFrom, AllPublic;
    var found: seq<Citation> := [];
    var seen: set<string> := {};
    ghost var all := CitationsFrom(ids, {}, g);
    assert ids[0..] == ids && AllPublic([], base) by { NothingCited(seen, g, base); }
    for i := 0 to |ids|
      invariant found + CitationsFrom(ids[i..], seen, g) == all
      invariant AllPublic(found, base)
    {
      var id := ids[i];
      CiteStep(ids, i, seen, found, g);
      if id in seen { continue; }
      seen := seen + {id};
      var citation := g.citations[id];
      PublicSoFar(found + [citation], CitationsFrom(ids[i + 1..], seen, g), base);
      PublicLast(found, citation, base);
      if !Public(citation.url, base) { return None; }
      found := found + [citation];
    }
    NothingCited(seen, g, base);
    assert ids[|ids|..] == [] && found + [] == found;
    citations := Some(found);
  }

  lemma NothingCited(seen: set<string>, g: Gathered, base: string)
    ensures CitationsFrom([], seen, g) == [] && AllPublic([], base)
  {
  }

  lemma PublicLast(citations: seq<Citation>, last: Citation, base: string)
    ensures AllPublic(citations + [last], base) <==> AllPublic(citations, base) && Public(last.url, base)
  {
    hide Public;
    var all := citations + [last];
    assert all[|citations|] == last && forall k :: 0 <= k < |citations| ==> all[k] == citations[k];
  }

  lemma CiteStep(ids: seq<string>, i: nat, seen: set<string>, found: seq<Citation>, g: Gathered)
    requires i < |ids| && forall id :: id in ids ==> id in g.citations
    ensures found + CitationsFrom(ids[i..], seen, g) ==
      if ids[i] in seen then found + CitationsFrom(ids[i + 1..], seen, g)
      else (found + [g.citations[ids[i]]]) + CitationsFrom(ids[i + 1..], seen + {ids[i]}, g)
  {
    assert ids[i..][0] == ids[i] && ids[i..][1..] == ids[i + 1..];
    var citation, rest := g.citations[ids[i]], CitationsFrom(ids[i + 1..], seen + {ids[i]}, g);
    assert found + ([citation] + rest) == (found + [citation]) + rest;
  }

  /** Ask the evidence whether the model's last word stands. */
  method Judge(raw: Json, g: Gathered, base: string, allowClarification: bool, lib: Library) returns (v: Verdict)
    ensures v == VerdictOf(raw, g, base, allowClarification, lib)
  {
    hide LoadBearing, AllPublic, Strip, CitationsFrom, ImagesFrom;
    var parsed := if raw.Str? then lib.parse(raw.s) else None;
    if parsed.None? || !parsed.value.Obj? { return Abstain; }
    var fields := parsed.value.fields;
    if Get(fields, "response_type") == Str("clarification") {
      var parts := ClarificationParts(raw, lib);
      if allowClarification && parts.Some? && LoadBearing(parts.value.1, g.metadata, lib) {
        return Ask(parts.value.0, parts.value.1);
      }
      return Abstain;
    }
    v := JudgeAnswer(fields, g, base);
  }

  method JudgeAnswer(parsed: Fields, g: Gathered, base: string) returns (v: Verdict)
    ensures v == AnswerOf(parsed, g, base)
  {
    hide AllPublic, Strip, CitationsFrom, ImagesFrom;
    var text, ids := Get(parsed, "answer"), Get(parsed, "citation_ids");
    if Get(parsed, "response_type") != Str("answer") || !text.Str? || Strip(text.s) == "" { return Abstain; }
    if !ids.Arr? || !(forall k :: 0 <= k < |ids.items| ==> ids.items[k].Str?) { return Abstain; }
    var named := Named(ids.items);
    if named == [] || !(forall id :: id in named ==> id in g.citations) { return Abstain; }
    var citations := Cite(named, g, base);
    if citations.None? { return Abstain; }
    var images := CitedImages(named, g);
    v := Answer(text.s, citations.value, images);
  }

  // --- What a verdict guarantees ------------------------------------------------------------------------

  predicate DistinctIds(citations: seq<Citation>) {
    forall j, k :: 0 <= j < k < |citations| ==> citations[j].evidenceId != citations[k].evidenceId
  }

  predicate DistinctUrls(images: seq<Image>) {
    forall j, k :: 0 <= j < k < |images| ==> images[j].url != images[k].url
  }

  predicate Cites(citations: seq<Citation>, id: string) {
    exists k :: 0 <= k < |citations| && citations[k].evidenceId == id
  }

  /** The image is one that the evidence of a cited id carries. */
  ghost predicate ImageBacked(image: Image, citations: seq<Citation>, g: Gathered) {
    && Cites(citations, image.evidenceId) && WebUrl(image.url)
    && exists raw :: raw in RawImages(g, image.evidenceId) && Showable(raw) && ImageOf(image.evidenceId, raw) == image
  }

  /** Two pieces of evidence give different values for `field`. */
  ghost predicate Disagree(field: string, metadata: map<string, Fields>, lib: Library) {
    exists a, b :: a in metadata && b in metadata
      && Truthy(Get(metadata[a], field)) && Truthy(Get(metadata[b], field))
      && lib.normalize(lib.render(Get(metadata[a], field))) != lib.normalize(lib.render(Get(metadata[b], field)))
  }

  ghost predicate Grounded(v: Verdict, g: Gathered, base: string, lib: Library) {
    match v
    case Abstain => true
    case Ask(question, field) => !Blank(question) && Disagree(field, g.metadata, lib)
    case Answer(text, citations, images) =>
      && !Blank(text)
      && citations != [] && DistinctIds(citations)
      && (forall c :: c in citations ==>
            c.evidenceId in g.citations && g.citations[c.evidenceId] == c && Public(c.url, base))
      && DistinctUrls(images)
      && (forall i :: i in images ==> ImageBacked(i, citations, g))
  }

  /** Each entry is filed under its own id. */
  predicate Filed(g: Gathered) {
    forall id <- g.citations :: g.citations[id].evidenceId == id
  }

  lemma {:induction false} CitationsOk(ids: seq<string>, seen: set<string>, g: Gathered)
    requires Filed(g) && forall id :: id in ids ==> id in g.citations
    ensures var cs := CitationsFrom(ids, seen, g);
      && DistinctIds(cs)
      && (forall c :: c in cs ==> c.evidenceId in ids && c.evidenceId !in seen && c == g.citations[c.evidenceId])
      && (forall id :: id in ids && id !in seen ==> Cites(cs, id))
    decreases |ids|
  {
    if ids != [] {
      var id, rest := ids[0], ids[1..];
      if id in seen {
        CitationsOk(rest, seen, g);
      } else {
        CitationsOk(rest, seen + {id}, g);
        var tail := CitationsFrom(rest, seen + {id}, g);
        var cs := [g.citations[id]] + tail;
        forall i | i in ids && i !in seen ensures Cites(cs, i) {
          if i == id {
            assert cs[0].evidenceId == id;
          } else {
            var k :| 0 <= k < |tail| && tail[k].evidenceId == i;
            assert cs[k + 1] == tail[k];
          }
        }
      }
    }
  }

  ghost predicate FromRaw(image: Image, ids: seq<string>, g: Gathered) {
    image.evidenceId in ids && WebUrl(image.url)
    && exists raw :: raw in RawImages(g, image.evidenceId) && Showable(raw) && ImageOf(image.evidenceId, raw) == image
  }

  ghost predicate ImagesOk(images: seq<Image>, ids: seq<string>, g: Gathered) {
    DistinctUrls(images) && forall i :: i in images ==> FromRaw(i, ids, g)
  }

  lemma {:induction false} WithImagesOk(images: seq<Image>, id: string, raws: seq<Fields>, ids: seq<string>,
                                        g: Gathered)
    requires ImagesOk(images, ids, g) && id in ids && forall raw :: raw in raws ==> raw in RawImages(g, id)
    ensures ImagesOk(WithImages(images, id, raws), ids, g)
    decreases |raws|
  {
    if raws != [] {
      assert raws[0] in raws;
      OneImageOk(images, id, raws[0], ids, g);
      WithImagesOk(WithImage(images, id, raws[0]), id, raws[1..], ids, g);
    }
  }

  lemma OneImageOk(images: seq<Image>, id: string, raw: Fields, ids: seq<string>, g: Gathered)
    requires ImagesOk(images, ids, g) && id in ids && raw in RawImages(g, id)
    ensures ImagesOk(WithImage(images, id, raw), ids, g)
  {
    hide WebUrl;
    if Showable(raw) && Get(raw, "url").s !in Urls(images) {
      var image := ImageOf(id, raw);
      assert FromRaw(image, ids, g);
      forall k | 0 <= k < |images| ensures images[k].url != image.url { assert images[k] in images; }
    }
  }

  lemma {:induction false} ImagesFromOk(images: seq<Image>, rest: seq<string>, ids: seq<string>, g: Gathered)
    requires ImagesOk(images, ids, g) && forall id :: id in rest ==> id in ids
    ensures ImagesOk(ImagesFrom(images, rest, g), ids, g)
    decreases |rest|
  {
    hide ImagesOk;
    if rest != [] {
      assert rest[0] in rest;
      WithImagesOk(images, rest[0], RawImages(g, rest[0]), ids, g);
      ImagesFromOk(WithImages(images, rest[0], RawImages(g, rest[0])), rest[1..], ids, g);
    }
  }

  lemma TwoAlternatives(field: string, metadata: map<string, Fields>, lib: Library)
    requires LoadBearing(field, metadata, lib)
    ensures Disagree(field, metadata, lib)
  {
    var all := Alternatives(field, metadata, lib);
    var x :| x in all;
    var others := all - {x};
    assert |others| >= 1;
    var y :| y in others;
    var a :| a in metadata && Truthy(Get(metadata[a], field))
        && x == lib.normalize(lib.render(Get(metadata[a], field)));
    var b :| b in metadata && Truthy(Get(metadata[b], field))
        && y == lib.normalize(lib.render(Get(metadata[b], field)));
  }

  lemma AnswerGrounded(parsed: Fields, g: Gathered, base: string, lib: Library)
    requires Filed(g)
    ensures Grounded(AnswerOf(parsed, g, base), g, base, lib)
  {
    var v := AnswerOf(parsed, g, base);
    if v.Answer? {
      var named := Named(Get(parsed, "citation_ids").items);
      CitationsOk(named, {}, g);
      assert ImagesOk([], named, g);
      ImagesFromOk([], named, named, g);
      BackImages(v.images, named, v.citations, g);
      PublicAll(v.citations, base);
      assert Cites(v.citations, named[0]);
    }
  }

  lemma PublicAll(citations: seq<Citation>, base: string)
    requires AllPublic(citations, base)
    ensures forall c :: c in citations ==> Public(c.url, base)
  {
  }

  lemma BackImages(images: seq<Image>, ids: seq<string>, citations: seq<Citation>, g: Gathered)
    requires ImagesOk(images, ids, g) && forall id :: id in ids ==> Cites(citations, id)
    ensures DistinctUrls(images) && forall i :: i in images ==> ImageBacked(i, citations, g)
  {
    hide Cites, Showable, WebUrl;
    forall i | i in images ensures ImageBacked(i, citations, g) {
      assert FromRaw(i, ids, g);
    }
  }

  /** Whatever the model says and whatever was retrieved, the verdict is grounded. */
  lemma VerdictIsGrounded(raw: Json, g: Gathered, base: string, allowClarification: bool, lib: Library)
    requires Filed(g)
    ensures Grounded(VerdictOf(raw, g, base, allowClarification, lib), g, base, lib)
  {
    hide LoadBearing, Public, DistinctIds, DistinctUrls, ImageBacked, Disagree, AnswerOf;
    var v := VerdictOf(raw, g, base, allowClarification, lib);
    if v.Ask? {
      TwoAlternatives(v.field, g.metadata, lib);
    } else if v.Answer? {
      AnswerGrounded(lib.parse(raw.s).value.fields, g, base, lib);
    }
  }
}
