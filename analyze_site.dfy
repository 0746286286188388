/**
 * The site analyser of `analyze-site/route.ts`: after the page has been
 * fetched, the `SiteAnalysis` record is built from the results of a handful
 * of regular-expression matches over the markup. The matches themselves are
 * inputs here (`Markup`); everything done with them afterwards (trimming,
 * splitting, tag stripping, filtering, counting, rounding) is modelled.
 */
module AnalyzeSite {
  import opened Wrappers
  import opened Text
  import opened Links
  import SeoSuggestions

  // ----- the record (the `SiteAnalysis` interface) -----

  datatype Headings = Headings(h1: seq<string>, h2: seq<string>, h3: seq<string>)
  datatype ImageStats = ImageStats(total: nat, withoutAlt: nat, altOptimizationRate: nat)
  datatype LinkStats = LinkStats(internal: nat, external: nat, total: nat)
  datatype ContentStats = ContentStats(wordCount: nat, hasStructuredData: bool, hasOpenGraph: bool, hasTwitterCard: bool)

  datatype SiteAnalysis = SiteAnalysis(
    url: string,
    title: string,
    description: string,
    keywords: seq<string>,
    headings: Headings,
    images: ImageStats,
    links: LinkStats,
    content: ContentStats,
    analyzedAt: string)

  /**
   * What the analyser's regular expressions return for one page:
   * the capture group of the first `<title>` match and of the description and
   * keywords `<meta>` matches (each `None` when there is no match), the full
   * text of every `<h1>`/`<h2>`/`<h3>` match and of every `<img>` match, and for
   * every `<a ... href=...>` match the `href` value its inner match captures,
   * or `None` when that case-sensitive inner match fails (`<A HREF="/about">`
   * is accepted by the case-insensitive outer pattern only).
   */
  datatype Markup = Markup(
    html: string,
    titleText: Option<string>,
    descriptionContent: Option<string>,
    keywordsContent: Option<string>,
    h1Matches: seq<string>,
    h2Matches: seq<string>,
    h3Matches: seq<string>,
    imgTags: seq<string>,
    hrefs: seq<Option<string>>)

  // ----- defaults -----

  const NoTitle: string := "タイトルなし"
  const NoDescription: string := "説明なし"

  function TitleOf(m: Option<string>): (r: string)
    ensures m.None? ==> r == NoTitle
    ensures m.Some? ==> r == Trim(m.value)
  {
    if m.Some? then Trim(m.value) else NoTitle
  }

  function DescriptionOf(m: Option<string>): (r: string)
    ensures m.None? ==> r == NoDescription
    ensures m.Some? ==> r == Trim(m.value)
  {
    if m.Some? then Trim(m.value) else NoDescription
  }

  // ----- keywords -----

  /** `content.split(',').map(k => k.trim())`, or `[]` without the meta tag. */
  function Keywords(m: Option<string>): (r: seq<string>)
    ensures m.None? ==> r == []
    ensures m.Some? ==> |r| == CountChar(m.value, ',') + 1
    ensures forall i :: 0 <= i < |r| ==> ',' !in r[i]
    ensures forall i :: 0 <= i < |r| ==> |r[i]| > 0 ==> !IsSpace(r[i][0]) && !IsSpace(r[i][|r[i]| - 1])
  {
    if m.None? then []
    else
      var parts := SplitOn(m.value, ',');
      seq(|parts|, i requires 0 <= i < |parts| => Trim(parts[i]))
  }

  /** The text before the first comma is the first keyword, trimmed; the rest are the keywords of what follows. */
  lemma KeywordsFirst(a: string, b: string)
    requires ',' !in a
    ensures Keywords(Some(a + [','] + b)) == [Trim(a)] + Keywords(Some(b))
  {
    SplitOnFirst(a, ',', b);
  }

  // ----- headings -----

  /** The full text of a heading match `<hN attrs>text</hN>`. */
  function HeadingMatch(level: char, attrs: string, text: string): string {
    "<" + (['h', level] + attrs) + ">" + (text + ("<" + ['/', 'h', level] + ">"))
  }

  /** `matches.map(h => h.replace(/<[^>]*>/g, ''))`: one entry per match, in document order. */
  function HeadingTexts(matches: seq<string>): (r: seq<string>)
    ensures |r| == |matches|
  {
    seq(|matches|, i requires 0 <= i < |matches| => StripTags(matches[i]))
  }

  /**
   * The regex only matches `<hN` + attributes without `>` + `>` + text
   * without `<` + `</hN>`, and stripping the tags of such a match leaves
   * exactly its text.
   */
  lemma HeadingText(level: char, attrs: string, text: string)
    requires '1' <= level <= '3' && '>' !in attrs && '<' !in text
    ensures StripTags(HeadingMatch(level, attrs, text)) == text
  {
    var body := ['h', level] + attrs;
    assert '>' !in body;
    var closing := "<" + ['/', 'h', level] + ">";
    StripTagsTag(body, text + closing);
    StripTagsPlain(text, closing);
    assert closing + "" == closing;
    StripTagsTag(['/', 'h', level], "");
  }

  /** Every heading entry of well-formed matches is non-empty text without `<`, the text of its match. */
  lemma {:induction false} HeadingTextsOfMatches(level: char, attrs: seq<string>, texts: seq<string>)
    requires '1' <= level <= '3' && |attrs| == |texts|
    requires forall i :: 0 <= i < |attrs| ==> '>' !in attrs[i]
    requires forall i :: 0 <= i < |texts| ==> '<' !in texts[i]
    ensures HeadingTexts(seq(|texts|, i requires 0 <= i < |texts| => HeadingMatch(level, attrs[i], texts[i]))) == texts
  {
    var ms := seq(|texts|, i requires 0 <= i < |texts| => HeadingMatch(level, attrs[i], texts[i]));
    forall i | 0 <= i < |texts|
      ensures HeadingTexts(ms)[i] == texts[i]
    {
      HeadingText(level, attrs[i], texts[i]);
    }
  }

  // ----- images -----

  /** The analyser's test: no `alt=`, or `alt=""`, or `alt=''`. */
  predicate MissingAlt(img: string) {
    !Contains(img, "alt=") || Contains(img, "alt=\"\"") || Contains(img, "alt=''")
  }

  /** The length of `images.filter(MissingAlt)`. */
  function CountMissingAlt(images: seq<string>): (n: nat)
    ensures n <= |images|
  {
    if images == [] then 0
    else CountMissingAlt(images[..|images| - 1]) + (if MissingAlt(images[|images| - 1]) then 1 else 0)
  }

  /** Every image the rule engine flags, the analyser flags too. */
  lemma {:induction false} RuleEngineCountsFewer(images: seq<string>)
    ensures SeoSuggestions.CountLacksAlt(images) <= CountMissingAlt(images)
  {
    if images != [] {
      RuleEngineCountsFewer(images[..|images| - 1]);
    }
  }

  /** `alt=''` is missing alt for the analyser, although the rule engine passes it. */
  lemma SingleQuotedAltMissing(pre: string, post: string)
    requires '"' !in pre && '"' !in post
    ensures MissingAlt(pre + "alt=''" + post)
    ensures !SeoSuggestions.LacksAlt(pre + "alt=''" + post)
  {
    Mentions(pre, "alt=''", post);
    SeoSuggestions.SingleQuotedAltPasses(pre, post);
  }

  /** A tag without `alt=` (such as `<img src="a.png">`) is flagged by both tests. */
  lemma NoAltFlaggedByBoth(img: string)
    requires !Contains(img, "alt=")
    ensures MissingAlt(img) && SeoSuggestions.LacksAlt(img)
  {
  }

  /** In particular a tag without any `=` has no `alt=`. */
  lemma NoEqualsFlaggedByBoth(img: string)
    requires '=' !in img
    ensures MissingAlt(img) && SeoSuggestions.LacksAlt(img)
  {
    MissingCharNotContained(img, "alt=", 3);
    NoAltFlaggedByBoth(img);
  }

  /** An empty double-quoted `alt=""` is flagged by both tests. */
  lemma EmptyAltFlaggedByBoth(pre: string, post: string)
    ensures MissingAlt(pre + "alt=\"\"" + post) && SeoSuggestions.LacksAlt(pre + "alt=\"\"" + post)
  {
    Mentions(pre, "alt=\"\"", post);
  }

  /** A tag with `alt=` and no quote character at all passes both tests. */
  lemma UnquotedAltPasses(pre: string, post: string)
    requires '"' !in pre && '"' !in post && '\'' !in pre && '\'' !in post
    ensures !MissingAlt(pre + "alt=x" + post) && !SeoSuggestions.LacksAlt(pre + "alt=x" + post)
  {
    var img := pre + "alt=x" + post;
    Mentions(pre, "alt=", "x" + post);
    assert pre + "alt=" + ("x" + post) == img;
    assert forall i :: 0 <= i < |img| ==> img[i] != '"' && img[i] != '\'' by {
      forall i | 0 <= i < |img| ensures img[i] != '"' && img[i] != '\'' {
        if i < |pre| {
          assert img[i] == pre[i];
        } else if i < |pre| + 5 {
          assert img[i] == "alt=x"[i - |pre|];
        } else {
          assert img[i] == post[i - |pre| - 5];
        }
      }
    }
    MissingCharNotContained(img, "alt=\"\"", 4);
    MissingCharNotContained(img, "alt=''", 4);
  }

  /**
   * `Math.round(x / t * 100)` for `0 <= x <= t`, `t > 0`, computed on exact
   * rationals with ties rounded up: the result is the integer nearest to
   * `100 x / t`.
   */
  function RoundedPercent(x: nat, t: nat): (r: nat)
    requires 0 < t && x <= t
    ensures r <= 100
    ensures (2 * r - 1) * t <= 200 * x < (2 * r + 1) * t
  {
    HalfUpBounds(x, t);
    (200 * x + t) / (2 * t)
  }

  lemma HalfUpBounds(x: nat, t: nat)
    requires 0 < t && x <= t
    ensures var q := (200 * x + t) / (2 * t);
      q <= 100 && (2 * q - 1) * t <= 200 * x < (2 * q + 1) * t
  {
    var n := 200 * x + t;
    var q := n / (2 * t);
    assert n == 2 * t * q + n % (2 * t);
  }

  /** The rate for `total` images of which `missing` lack alt: 0 without images, else the rounded share with alt. */
  function AltRate(total: nat, missing: nat): (r: nat)
    requires missing <= total
    ensures r <= 100
    ensures total == 0 ==> r == 0
    ensures total > 0 ==> (2 * r - 1) * total <= 200 * (total - missing) < (2 * r + 1) * total
  {
    if total == 0 then 0 else RoundedPercent(total - missing, total)
  }

  /** `altOptimizationRate`. */
  function AltOptimizationRate(images: seq<string>): (r: nat)
    ensures r <= 100
    ensures |images| == 0 ==> r == 0
    ensures |images| > 0 ==>
      (2 * r - 1) * |images| <= 200 * (|images| - CountMissingAlt(images)) < (2 * r + 1) * |images|
  {
    AltRate(|images|, CountMissingAlt(images))
  }

  /**
   * The rate reads 100 exactly when at most one image in 200 misses alt:
   * rounding, not a perfect page, is what the top score means.
   */
  lemma FullRate(images: seq<string>)
    requires |images| > 0
    ensures AltOptimizationRate(images) == 100 <==> 200 * CountMissingAlt(images) <= |images|
  {
    PercentIsFull(|images|, CountMissingAlt(images));
  }

  lemma PercentIsFull(t: nat, w: nat)
    requires 0 < t && w <= t
    ensures AltRate(t, w) == 100 <==> 200 * w <= t
  {
    var r := AltRate(t, w);
    if r == 100 {
      assert (2 * r - 1) * t == 199 * t;
    } else {
      MulMonotone(2 * r + 1, 199, t);
    }
  }

  lemma MulMonotone(a: int, b: int, t: nat)
    requires a <= b
    ensures a * t <= b * t
  {
  }

  /** With every image carrying alt the rate is 100. */
  lemma NoMissingAltIsFull(images: seq<string>)
    requires |images| > 0 && CountMissingAlt(images) == 0
    ensures AltOptimizationRate(images) == 100
  {
    FullRate(images);
  }

  // ----- the record -----

  /** `html.replace(/<[^>]*>/g, '').trim().split(/\s+/).length`. */
  function ContentWordCount(html: string): (n: nat)
    ensures n >= 1
  {
    WordCount(Trim(StripTags(html)))
  }

  /** The count is one more than the number of white-space runs inside the visible text. */
  lemma ContentWordCountRuns(html: string)
    ensures ContentWordCount(html) == Runs(Trim(StripTags(html))) + 1
  {
    WordCountRuns(Trim(StripTags(html)));
  }

  /** Markup that is nothing but tags counts as one word, as `''.split(/\s+/)` is `['']`. */
  lemma OnlyTagsIsOneWord(body: string)
    requires '>' !in body
    ensures ContentWordCount("<" + body + ">") == 1
  {
    StripTagsTag(body, "");
    assert "<" + body + ">" + "" == "<" + body + ">";
    assert Trim([]) == [];
  }

  /** The `analysis` object literal of `analyzeSite`, given the page's hostname and the clock. */
  function Analyze(url: string, domain: string, page: Markup, now: string): (r: SiteAnalysis)
    ensures r.url == url && r.analyzedAt == now
    ensures r.images.total == |page.imgTags| && r.images.withoutAlt <= r.images.total
    ensures r.images.withoutAlt == CountMissingAlt(page.imgTags)
    ensures r.images.altOptimizationRate == AltRate(r.images.total, r.images.withoutAlt) <= 100
    ensures r.links.total == |page.hrefs| && r.links.internal + r.links.external <= r.links.total
    ensures r.content.wordCount >= 1
    ensures |r.headings.h1| == |page.h1Matches| && |r.headings.h2| == |page.h2Matches| && |r.headings.h3| == |page.h3Matches|
    ensures page.keywordsContent.None? <==> r.keywords == []
    ensures r.title == TitleOf(page.titleText) && r.description == DescriptionOf(page.descriptionContent)
    ensures r.keywords == Keywords(page.keywordsContent)
    ensures r.headings.h1 == HeadingTexts(page.h1Matches) && r.headings.h2 == HeadingTexts(page.h2Matches)
    ensures r.headings.h3 == HeadingTexts(page.h3Matches)
    ensures r.links.internal == CountInternal(page.hrefs, domain) && r.links.external == CountExternal(page.hrefs, domain)
    ensures r.content.wordCount == ContentWordCount(page.html)
    ensures r.content.hasStructuredData == Contains(page.html, "application/ld+json")
    ensures r.content.hasOpenGraph == Contains(page.html, "og:") && r.content.hasTwitterCard == Contains(page.html, "twitter:")
  {
    InternalPlusExternal(page.hrefs, domain);
    SiteAnalysis(
      url,
      TitleOf(page.titleText),
      DescriptionOf(page.descriptionContent),
      Keywords(page.keywordsContent),
      Headings(HeadingTexts(page.h1Matches), HeadingTexts(page.h2Matches), HeadingTexts(page.h3Matches)),
      ImageStats(|page.imgTags|, CountMissingAlt(page.imgTags), AltOptimizationRate(page.imgTags)),
      LinkStats(CountInternal(page.hrefs, domain), CountExternal(page.hrefs, domain), |page.hrefs|),
      ContentStats(
        ContentWordCount(page.html),
        Contains(page.html, "application/ld+json"),
        Contains(page.html, "og:"),
        Contains(page.html, "twitter:")),
      now)
  }

  /**
   * Open Graph and Twitter Card markup set their flags, and markup without
   * a `:` sets neither; markup without a `+` has no structured data.
   */
  lemma SocialFlags(pre: string, post: string, url: string, domain: string, page: Markup, now: string)
    ensures page.html == pre + "og:" + post ==> Analyze(url, domain, page, now).content.hasOpenGraph
    ensures page.html == pre + "twitter:" + post ==> Analyze(url, domain, page, now).content.hasTwitterCard
    ensures ':' !in page.html ==>
      !Analyze(url, domain, page, now).content.hasOpenGraph && !Analyze(url, domain, page, now).content.hasTwitterCard
    ensures '+' !in page.html ==> !Analyze(url, domain, page, now).content.hasStructuredData
    ensures Analyze(url, domain, page, now).content.hasOpenGraph <==> exists k :: OccursAt(page.html, "og:", k)
    ensures Analyze(url, domain, page, now).content.hasTwitterCard <==> exists k :: OccursAt(page.html, "twitter:", k)
    ensures Analyze(url, domain, page, now).content.hasStructuredData <==>
      exists k :: OccursAt(page.html, "application/ld+json", k)
  {
    ContainsIff(page.html, "og:");
    ContainsIff(page.html, "twitter:");
    ContainsIff(page.html, "application/ld+json");
    Mentions(pre, "og:", post);
    Mentions(pre, "twitter:", post);
    if ':' !in page.html {
      MissingCharNotContained(page.html, "og:", 2);
      MissingCharNotContained(page.html, "twitter:", 7);
    }
    if '+' !in page.html {
      MissingCharNotContained(page.html, "application/ld+json", 14);
    }
  }
}
