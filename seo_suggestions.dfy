/**
 * The on-page SEO rule engine of the suggestions route: eight rules, checked
 * in a fixed order over the signals read off the fetched markup, each adding
 * at most one suggestion record to the list it returns.
 *
 * The regular-expression matching itself is not modelled; the signals record
 * carries what the matches produce (the title and description groups, the
 * match counts, the `<img>` tag strings and the `href` values).
 */
module SeoSuggestions {
  import opened Wrappers
  import opened Text
  import opened Links

  datatype Priority = High | Medium | Low

  /** One rule's recommendation (the `SEOSuggestion` record). */
  datatype Suggestion = Suggestion(
    category: string,
    priority: Priority,
    title: string,
    description: string,
    implementation: string)

  /** What the rules read off the markup. */
  datatype PageSignals = PageSignals(
    title: Option<string>,        // group 1 of the first `<title ...>text</title>`; None when there is none or it is empty
    description: Option<string>,  // content of the first `<meta name="description" content=...>`
    h1TextMatches: nat,           // `<h1 ...>text</h1>` matches (text without `<`)
    h1Tags: nat,                  // opening `<h1 ...>` tags
    h2Tags: nat,                  // opening `<h2 ...>` tags
    h3Tags: nat,                  // opening `<h3 ...>` tags
    images: seq<string>,          // every `<img ...>` tag, as written
    hrefs: seq<Option<string>>,   // per `<a ... href=...>` tag, the inner match's href value; None when that case-sensitive match fails
    scriptTags: nat,              // `<script ... src=...>` tags
    stylesheetLinks: nat)         // `<link ... rel="stylesheet" ...>` tags

  const MetaTags := "メタタグ"
  const ContentStructure := "コンテンツ構造"
  const Accessibility := "アクセシビリティ"
  const LinkStructure := "リンク構造"
  const Performance := "パフォーマンス"

  const TitleTooShortTitle := "タイトルが短すぎます"
  const TitleTooLongTitle := "タイトルが長すぎます"

  // ----- the records, one per outcome -----

  function TitleMissing(): Suggestion {
    Suggestion(MetaTags, High, "タイトルタグが見つかりません",
      "ページにtitleタグを追加してください。SEOにとって最も重要な要素の一つです。",
      "<title>適切なページタイトル（50-60文字程度）</title>")
  }

  function TitleTooShort(len: nat): Suggestion {
    Suggestion(MetaTags, Medium, TitleTooShortTitle,
      "現在のタイトル長: " + NatToString(len) + "文字。30-60文字程度が推奨されます。",
      "より詳細で魅力的なタイトルに変更してください。")
  }

  function TitleTooLong(len: nat): Suggestion {
    Suggestion(MetaTags, Medium, TitleTooLongTitle,
      "現在のタイトル長: " + NatToString(len) + "文字。検索結果で切り詰められる可能性があります。",
      "60文字以内に収めるようタイトルを短縮してください。")
  }

  function DescriptionMissing(): Suggestion {
    Suggestion(MetaTags, High, "メタディスクリプションが設定されていません",
      "ページの内容を要約したメタディスクリプションを追加してください。",
      "<meta name=\"description\" content=\"ページの内容を120-160文字で要約\">")
  }

  function DescriptionTooShort(len: nat): Suggestion {
    Suggestion(MetaTags, Medium, "メタディスクリプションが短すぎます",
      "現在の長さ: " + NatToString(len) + "文字。120-160文字程度が推奨されます。",
      "より詳細な説明を追加してください。")
  }

  function H1Missing(): Suggestion {
    Suggestion(ContentStructure, High, "H1タグが見つかりません",
      "ページの主題を表すH1タグを追加してください。",
      "<h1>ページのメイントピック</h1>")
  }

  function H1Multiple(count: nat): Suggestion {
    Suggestion(ContentStructure, Medium, "H1タグが複数あります",
      NatToString(count) + "個のH1タグが見つかりました。1ページにつき1つのH1タグが推奨されます。",
      "追加のH1タグをH2またはH3に変更してください。")
  }

  function HeadingStructurePoor(): Suggestion {
    Suggestion(ContentStructure, Medium, "見出し構造を改善してください",
      "見出しタグ（H1-H6）を階層的に使用してください。",
      "H1→H2→H3の順序で見出しを構造化してください。")
  }

  function AltMissing(count: nat): Suggestion {
    Suggestion(Accessibility, Medium, "alt属性が設定されていない画像があります",
      NatToString(count) + "個の画像にalt属性が設定されていません。",
      "<img src=\"image.jpg\" alt=\"画像の説明文\">")
  }

  function FewInternalLinks(count: nat): Suggestion {
    Suggestion(LinkStructure, Low, "内部リンクを増やしてください",
      "現在の内部リンク数: " + NatToString(count) + "個。関連ページへの内部リンクを追加してください。",
      "関連するページへのリンクを追加して、サイト内の回遊性を向上させてください。")
  }

  function TooManyScripts(count: nat): Suggestion {
    Suggestion(Performance, Medium, "JavaScriptファイルが多すぎます",
      NatToString(count) + "個のスクリプトファイルが読み込まれています。",
      "スクリプトファイルを統合または遅延読み込みを検討してください。")
  }

  function TooManyStylesheets(count: nat): Suggestion {
    Suggestion(Performance, Low, "CSSファイルの最適化",
      NatToString(count) + "個のCSSファイルが読み込まれています。",
      "CSSファイルを統合して読み込み時間を短縮してください。")
  }

  // ----- the rules -----

  /** The title rule: a suggestion unless the title exists with 30 to 60 characters. */
  function TitleCheck(title: Option<string>): (r: Option<Suggestion>)
    ensures r.Some? <==> title.None? || |title.value| < 30 || |title.value| > 60
    ensures r.Some? ==> r.value.category == MetaTags
    ensures r.Some? ==> (r.value.priority == High <==> title.None?)
    ensures r.Some? && title.Some? ==>
      && r.value.priority == Medium
      && (r.value.title == TitleTooShortTitle <==> |title.value| < 30)
      && (r.value.title == TitleTooLongTitle <==> |title.value| > 60)
      && Contains(r.value.description, NatToString(|title.value|))
  {
    match title
    case None => Some(TitleMissing())
    case Some(t) =>
      if |t| < 30 then
        Mentions("現在のタイトル長: ", NatToString(|t|), "文字。30-60文字程度が推奨されます。");
        Some(TitleTooShort(|t|))
      else if |t| > 60 then
        Mentions("現在のタイトル長: ", NatToString(|t|), "文字。検索結果で切り詰められる可能性があります。");
        Some(TitleTooLong(|t|))
      else None
  }

  /** The description rule: high when it is absent, medium below 120 characters; there is no upper bound. */
  function DescriptionCheck(description: Option<string>): (r: Option<Suggestion>)
    ensures r.Some? <==> description.None? || |description.value| < 120
    ensures r.Some? ==> r.value.category == MetaTags
    ensures r.Some? ==> (r.value.priority == High <==> description.None?)
    ensures r.Some? && description.Some? ==>
      r.value.priority == Medium && Contains(r.value.description, NatToString(|description.value|))
  {
    match description
    case None => Some(DescriptionMissing())
    case Some(d) =>
      if |d| < 120 then
        Mentions("現在の長さ: ", NatToString(|d|), "文字。120-160文字程度が推奨されます。");
        Some(DescriptionTooShort(|d|))
      else None
  }

  /** The H1 rule, on the count of `<h1>text</h1>` matches: high when there is none, medium when there are several. */
  function H1Check(h1TextMatches: nat): (r: Option<Suggestion>)
    ensures r.Some? <==> h1TextMatches != 1
    ensures r.Some? ==> r.value.category == ContentStructure
    ensures r.Some? ==> (r.value.priority == High <==> h1TextMatches == 0)
    ensures r.Some? ==> (r.value.priority == Medium <==> h1TextMatches > 1)
    ensures h1TextMatches > 1 ==> Contains(r.value.description, NatToString(h1TextMatches))
  {
    if h1TextMatches == 0 then Some(H1Missing())
    else if h1TextMatches > 1 then
      Mentions("", NatToString(h1TextMatches), "個のH1タグが見つかりました。1ページにつき1つのH1タグが推奨されます。");
      assert "" + NatToString(h1TextMatches) + "個のH1タグが見つかりました。1ページにつき1つのH1タグが推奨されます。"
        == H1Multiple(h1TextMatches).description;
      Some(H1Multiple(h1TextMatches))
    else None
  }

  /**
   * `analyzeHeadingStructure(html).isWellStructured`, on the opening-tag counts:
   * exactly one H1 and, when there is an H3, at least one H2.
   */
  function AnalyzeHeadingStructure(h1Tags: nat, h2Tags: nat, h3Tags: nat): (wellStructured: bool)
    ensures wellStructured <==> h1Tags == 1 && (h3Tags > 0 ==> h2Tags > 0)
  {
    h1Tags == 1 && (h2Tags > 0 || h3Tags == 0)
  }

  /** The heading-structure rule fires exactly when the structure is not well formed. */
  function HeadingCheck(h1Tags: nat, h2Tags: nat, h3Tags: nat): (r: Option<Suggestion>)
    ensures r.Some? <==> !AnalyzeHeadingStructure(h1Tags, h2Tags, h3Tags)
    ensures r.Some? <==> h1Tags != 1 || (h3Tags > 0 && h2Tags == 0)
    ensures r.Some? ==> r.value.priority == Medium && r.value.category == ContentStructure
  {
    if !AnalyzeHeadingStructure(h1Tags, h2Tags, h3Tags) then Some(HeadingStructurePoor()) else None
  }

  /** The rule engine's missing-alt test: no `alt=` at all, or `alt=""`. */
  predicate LacksAlt(img: string) {
    !Contains(img, "alt=") || Contains(img, "alt=\"\"")
  }

  function CountLacksAlt(images: seq<string>): (n: nat)
    ensures n <= |images|
  {
    if images == [] then 0
    else CountLacksAlt(images[..|images| - 1]) + (if LacksAlt(images[|images| - 1]) then 1 else 0)
  }

  lemma {:induction false} CountLacksAltPositive(images: seq<string>)
    ensures CountLacksAlt(images) > 0 <==> exists i :: 0 <= i < |images| && LacksAlt(images[i])
  {
    if images != [] {
      var init := images[..|images| - 1];
      CountLacksAltPositive(init);
      assert forall i :: 0 <= i < |init| ==> init[i] == images[i];
    }
  }

  /** The alt rule fires exactly when some image lacks a usable alt, and names how many do. */
  function AltCheck(images: seq<string>): (r: Option<Suggestion>)
    ensures r.Some? <==> exists i :: 0 <= i < |images| && LacksAlt(images[i])
    ensures r.Some? ==>
      && r.value.priority == Medium && r.value.category == Accessibility
      && Contains(r.value.description, NatToString(CountLacksAlt(images)))
  {
    CountLacksAltPositive(images);
    var n := CountLacksAlt(images);
    if n > 0 then
      Mentions("", NatToString(n), "個の画像にalt属性が設定されていません。");
      assert "" + NatToString(n) + "個の画像にalt属性が設定されていません。" == AltMissing(n).description;
      Some(AltMissing(n))
    else None
  }

  /** `analyzeInternalLinks(html, url).count`: the hrefs that start with `/` or mention the host. */
  function AnalyzeInternalLinks(hrefs: seq<Option<string>>, domain: string): (count: nat)
    ensures count <= |hrefs|
    ensures count > 0 <==> exists i :: 0 <= i < |hrefs| && InternalLink(hrefs[i], domain)
  {
    CountInternalPositive(hrefs, domain);
    CountInternal(hrefs, domain)
  }

  /** The link rule: low priority, fires exactly when there are fewer than five internal links. */
  function LinkCheck(hrefs: seq<Option<string>>, domain: string): (r: Option<Suggestion>)
    ensures r.Some? <==> AnalyzeInternalLinks(hrefs, domain) < 5
    ensures r.Some? ==>
      && r.value.priority == Low && r.value.category == LinkStructure
      && Contains(r.value.description, NatToString(AnalyzeInternalLinks(hrefs, domain)))
  {
    var n := AnalyzeInternalLinks(hrefs, domain);
    if n < 5 then
      Mentions("現在の内部リンク数: ", NatToString(n), "個。関連ページへの内部リンクを追加してください。");
      Some(FewInternalLinks(n))
    else None
  }

  /** The script rule: medium, more than ten external scripts. */
  function ScriptCheck(scriptTags: nat): (r: Option<Suggestion>)
    ensures r.Some? <==> scriptTags > 10
    ensures r.Some? ==> r.value.priority == Medium && r.value.category == Performance
    ensures r.Some? ==> Contains(r.value.description, NatToString(scriptTags))
  {
    if scriptTags > 10 then
      Mentions("", NatToString(scriptTags), "個のスクリプトファイルが読み込まれています。");
      assert "" + NatToString(scriptTags) + "個のスクリプトファイルが読み込まれています。" == TooManyScripts(scriptTags).description;
      Some(TooManyScripts(scriptTags))
    else None
  }

  /** The stylesheet rule: low, more than five stylesheets. */
  function StylesheetCheck(stylesheetLinks: nat): (r: Option<Suggestion>)
    ensures r.Some? <==> stylesheetLinks > 5
    ensures r.Some? ==> r.value.priority == Low && r.value.category == Performance
    ensures r.Some? ==> Contains(r.value.description, NatToString(stylesheetLinks))
  {
    if stylesheetLinks > 5 then
      Mentions("", NatToString(stylesheetLinks), "個のCSSファイルが読み込まれています。");
      assert "" + NatToString(stylesheetLinks) + "個のCSSファイルが読み込まれています。" == TooManyStylesheets(stylesheetLinks).description;
      Some(TooManyStylesheets(stylesheetLinks))
    else None
  }

  /** What `analyzePerformanceIssues` returns: the script record, then the stylesheet record. */
  function PerformanceIssues(scriptTags: nat, stylesheetLinks: nat): (r: seq<Suggestion>)
    ensures |r| <= 2
    ensures forall i :: 0 <= i < |r| ==> r[i].category == Performance
    ensures scriptTags > 10 && stylesheetLinks > 5 ==> |r| == 2 && r[0].priority == Medium && r[1].priority == Low
  {
    Fired(ScriptCheck(scriptTags)) + Fired(StylesheetCheck(stylesheetLinks))
  }

  /** The engine's answer: every rule's record, in rule order. */
  function Suggestions(s: PageSignals, domain: string): (r: seq<Suggestion>)
    ensures |r| <= 8
  {
    Fired(TitleCheck(s.title))
    + Fired(DescriptionCheck(s.description))
    + Fired(H1Check(s.h1TextMatches))
    + Fired(HeadingCheck(s.h1Tags, s.h2Tags, s.h3Tags))
    + Fired(AltCheck(s.images))
    + Fired(LinkCheck(s.hrefs, domain))
    + PerformanceIssues(s.scriptTags, s.stylesheetLinks)
  }

  // ----- the imperative code -----

  /** `analyzePerformanceIssues`: pushes the records of the two performance rules. */
  method AnalyzePerformanceIssues(scriptTags: nat, stylesheetLinks: nat) returns (suggestions: seq<Suggestion>)
    ensures suggestions == PerformanceIssues(scriptTags, stylesheetLinks)
  {
    suggestions := [];
    if scriptTags > 10 {
      suggestions := suggestions + [TooManyScripts(scriptTags)];
    }
    if stylesheetLinks > 5 {
      suggestions := suggestions + [TooManyStylesheets(stylesheetLinks)];
    }
  }

  /**
   * `generateSEOSuggestions` after the fetch: checks the rules in order and
   * pushes the record of every rule that fires, then the performance records.
   */
  method GenerateSeoSuggestions(s: PageSignals, domain: string) returns (suggestions: seq<Suggestion>)
    ensures suggestions == Suggestions(s, domain)
    ensures |suggestions| <= 8
  {
    // each rule pushes its record onto the list only when it fires
    suggestions := Fired(TitleCheck(s.title));
    suggestions := suggestions + Fired(DescriptionCheck(s.description));
    suggestions := suggestions + Fired(H1Check(s.h1TextMatches));
    suggestions := suggestions + Fired(HeadingCheck(s.h1Tags, s.h2Tags, s.h3Tags));
    suggestions := suggestions + Fired(AltCheck(s.images));
    suggestions := suggestions + Fired(LinkCheck(s.hrefs, domain));
    var performanceIssues := AnalyzePerformanceIssues(s.scriptTags, s.stylesheetLinks);
    suggestions := suggestions + performanceIssues;
  }

  // ----- properties of the rule chain -----

  /**
   * A page with no title, no description and no H1, and three images without
   * alt, gets the three high-priority meta-tag and H1 records first, then the
   * heading-structure record and the alt record for three images.
   */
  lemma MissingEverything(s: PageSignals, domain: string)
    requires s.title.None? && s.description.None? && s.h1TextMatches == 0 && s.h1Tags == 0
    requires CountLacksAlt(s.images) == 3
    ensures Suggestions(s, domain)
      == [TitleMissing()] + [DescriptionMissing()] + [H1Missing()] + [HeadingStructurePoor()] + [AltMissing(3)]
         + Fired(LinkCheck(s.hrefs, domain)) + PerformanceIssues(s.scriptTags, s.stylesheetLinks)
  {
    assert Fired(TitleCheck(s.title)) == [TitleMissing()];
    assert Fired(DescriptionCheck(s.description)) == [DescriptionMissing()];
    assert Fired(H1Check(s.h1TextMatches)) == [H1Missing()];
    assert Fired(HeadingCheck(s.h1Tags, s.h2Tags, s.h3Tags)) == [HeadingStructurePoor()];
    assert Fired(AltCheck(s.images)) == [AltMissing(3)];
  }

  /** The alt record for three images names the number 3 in its description. */
  lemma AltMissingMentionsThree()
    ensures Contains(AltMissing(3).description, "3")
  {
    assert NatToString(3) == "3";
    Mentions("", "3", "個の画像にalt属性が設定されていません。");
  }

  /** A page that passes every rule gets no suggestion at all. */
  lemma {:induction false} CleanPage(s: PageSignals, domain: string)
    requires s.title.Some? && 30 <= |s.title.value| <= 60
    requires s.description.Some? && |s.description.value| >= 120
    requires s.h1TextMatches == 1 && s.h1Tags == 1 && s.h2Tags > 0
    requires forall i :: 0 <= i < |s.images| ==> !LacksAlt(s.images[i])
    requires CountInternal(s.hrefs, domain) >= 5
    requires s.scriptTags <= 10 && s.stylesheetLinks <= 5
    ensures Suggestions(s, domain) == []
  {
    CountLacksAltPositive(s.images);
  }

  /**
   * The rule engine's alt test is weaker than the analyser's: an image tag
   * with a single-quoted empty `alt=''` (and no double quote) passes it.
   */
  lemma SingleQuotedAltPasses(pre: string, post: string)
    requires '"' !in pre && '"' !in post
    ensures !LacksAlt(pre + "alt=''" + post)
  {
    var img := pre + "alt=''" + post;
    assert img == pre + "alt=" + ("''" + post);
    Mentions(pre, "alt=", "''" + post);
    assert '"' !in img;
    MissingCharNotContained(img, "alt=\"\"", 4);
  }
}
