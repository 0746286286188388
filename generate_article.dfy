/**
 * The article generator of `generate-article/route.ts`: the section text with
 * its length padding, the Markdown document built from the section plan
 * (header, numbered table of contents, one block per section), the article
 * record with its word count and reading time, and the request handler.
 */
module GenerateArticle {
  import opened Wrappers
  import opened Text
  import opened ArticleTemplates

  /** The article title that follows the topic. */
  const TitleSuffix: string := "の完全ガイド：初心者から上級者まで対応した徹底解説"

  const DefaultTargetWordCount: nat := 20000

  const TopicRequired: string := "トピックが必要です"

  function ArticleTitle(topic: string): (r: string)
    ensures StartsWith(r, topic)
  {
    topic + TitleSuffix
  }

  // ----- one section -----

  /** The section's template paragraphs joined by blank lines. */
  function BaseContent(topic: string, section: Section): string {
    Join(SectionLines(topic, section), "\n\n")
  }

  /** The heading of the padding block. */
  const DetailHeading: string := "### 詳細解説"

  const PaddingHead: string := "\n\n" + DetailHeading + "\n\n"

  /** The rest of the padding's second paragraph, after the topic and the title. */
  const PaddingMiddle: string :=
    "について、さらに詳しく解説します。実際の活用シーンを想定した具体例を交えながら、理解を深めていきましょう。\n\n"

  /** The padding's last paragraph. */
  const PaddingLast: string := "この分野における最新の研究結果や業界動向も含めて、包括的な情報を提供いたします。"

  const PaddingTail: string := PaddingMiddle + PaddingLast

  /** The padding block names the topic and the section title, lower-cased. */
  function PaddingLead(topic: string, title: string): string {
    topic + "の" + ToLowerAscii(title)
  }

  /** The "detailed explanation" block appended to a section that falls short. */
  function Padding(topic: string, title: string): string {
    PaddingHead + PaddingLead(topic, title) + PaddingTail
  }

  /**
   * The shortfall test: fewer whitespace-separated pieces than 0.8 times the
   * section's target, with the target held in tenths of a word.
   */
  predicate NeedsPadding(content: string, section: Section) {
    100 * WordCount(content) < 8 * section.targetTenths
  }

  /** The integer test is `currentWordCount < targetWordCount * 0.8` on exact reals, the target being tenths over ten. */
  lemma NeedsPaddingReal(content: string, section: Section)
    ensures NeedsPadding(content, section) <==>
      (WordCount(content) as real) < (section.targetTenths as real / 10.0) * 0.8
  {
    var w, t := WordCount(content) as real, section.targetTenths as real;
    assert (t / 10.0) * 0.8 == 8.0 * t / 100.0;
    assert (100 * WordCount(content)) as real == 100.0 * w;
    assert (8 * section.targetTenths) as real == 8.0 * t;
  }

  /**
   * `generateSectionContent`: the template text, extended by the padding
   * block exactly when the template text is short of 80% of the target.
   */
  function SectionContent(topic: string, section: Section): (r: string)
    ensures StartsWith(r, BaseContent(topic, section))
    ensures r == BaseContent(topic, section) <==> !NeedsPadding(BaseContent(topic, section), section)
    ensures r != BaseContent(topic, section) ==>
      r[|BaseContent(topic, section)|..] == Padding(topic, section.title)
  {
    var base := BaseContent(topic, section);
    if NeedsPadding(base, section) then
      assert |base + Padding(topic, section.title)| > |base|;
      base + Padding(topic, section.title)
    else base
  }

  /**
   * `generateSectionContent` as the route writes it: the joined template
   * text, then the three padding pieces appended one after the other when
   * the word count falls short.
   */
  method GenerateSectionContent(topic: string, section: Section) returns (generatedContent: string)
    ensures generatedContent == SectionContent(topic, section)
  {
    var sectionContent := SectionLines(topic, section);
    generatedContent := Join(sectionContent, "\n\n");
    var currentWordCount := WordCount(generatedContent);
    if 100 * currentWordCount < 8 * section.targetTenths {
      ghost var base := generatedContent;
      generatedContent := generatedContent + PaddingHead;
      generatedContent := generatedContent + (PaddingLead(topic, section.title) + PaddingMiddle);
      generatedContent := generatedContent + PaddingLast;
      AppendPieces(base, PaddingHead, PaddingLead(topic, section.title), PaddingMiddle, PaddingLast);
    }
  }

  /** Appending the padding piece by piece appends the whole padding. */
  lemma AppendPieces(base: string, head: string, lead: string, middle: string, last: string)
    ensures base + head + (lead + middle) + last == base + (head + lead + (middle + last))
  {
  }

  /**
   * Below twelve requested words every section target is zero, and every
   * text has at least one piece, so no section of the plan is padded.
   */
  lemma SmallTargetUnpadded(topic: string, targetWordCount: nat, i: nat)
    requires targetWordCount < 12 && i < 12
    ensures SectionContent(topic, DesignArticleStructure(topic, targetWordCount).sections[i])
         == BaseContent(topic, DesignArticleStructure(topic, targetWordCount).sections[i])
  {
    var section := DesignArticleStructure(topic, targetWordCount).sections[i];
    assert section.targetTenths == 0;
  }

  lemma PaddingMentions(topic: string, title: string)
    ensures Contains(Padding(topic, title), DetailHeading)
    ensures Contains(Padding(topic, title), PaddingLead(topic, title))
  {
    Mentions("\n\n", DetailHeading, "\n\n");
    ContainsLeft(PaddingHead, PaddingLead(topic, title), DetailHeading);
    ContainsLeft(PaddingHead + PaddingLead(topic, title), PaddingTail, DetailHeading);
    Mentions(PaddingHead, PaddingLead(topic, title), PaddingTail);
  }

  /** A padded section carries the detail heading and names its topic and title. */
  lemma PaddedSectionsMentionDetail(topic: string, section: Section)
    requires NeedsPadding(BaseContent(topic, section), section)
    ensures Contains(SectionContent(topic, section), DetailHeading)
    ensures Contains(SectionContent(topic, section), PaddingLead(topic, section.title))
  {
    var base := BaseContent(topic, section);
    var pad := Padding(topic, section.title);
    assert SectionContent(topic, section) == base + pad;
    PaddingMentions(topic, section.title);
    ContainsRight(base, pad, DetailHeading);
    ContainsRight(base, pad, PaddingLead(topic, section.title));
  }

  // ----- the document -----

  function TitleLine(topic: string): string {
    "# " + ArticleTitle(topic) + "\n\n"
  }

  function IntroLead(topic: string): string {
    topic + "について包括的に学びたい方のための完全ガイドです。基本概念から実践的な活用方法まで、段階的に詳しく解説していきます。\n\n"
  }

  function IntroScope(topic: string): string {
    "この記事では、" + topic + "の基本的な理解から始まり、実際の活用方法、よくある間違いとその対処法、さらには上級者向けのテクニックまで幅広くカバーしています。\n\n"
  }

  const TocHeading: string := "## 目次\n\n"

  /** The title line, the two introduction paragraphs and the heading of the table of contents. */
  function Header(topic: string): string {
    TitleLine(topic) + IntroLead(topic) + IntroScope(topic) + TocHeading
  }

  function SubsectionLine(sub: string): string {
    "   - " + sub + "\n"
  }

  /** The bulleted subsection lines under one entry of the table of contents. */
  function SubsectionLines(subs: seq<string>): string {
    if subs == [] then []
    else SubsectionLines(subs[..|subs| - 1]) + SubsectionLine(subs[|subs| - 1])
  }

  /** The Markdown link to a section's anchor. */
  function TocLink(section: Section): string {
    "[" + section.title + "](#" + section.id + ")"
  }

  /** The numbered line linking to a section (numbering from one). */
  function TocLine(index: nat, section: Section): string {
    NatToString(index + 1) + ". " + TocLink(section) + "\n"
  }

  function TocEntry(index: nat, section: Section): string {
    TocLine(index, section) + SubsectionLines(section.subsections)
  }

  function Toc(sections: seq<Section>): string {
    if sections == [] then []
    else Toc(sections[..|sections| - 1]) + TocEntry(|sections| - 1, sections[|sections| - 1])
  }

  /** The separator between the table of contents and the sections, and after each section. */
  const Rule: string := "\n---\n\n"

  function HeadingLine(section: Section): string {
    "## " + section.title + "\n\n"
  }

  function BodyEntry(topic: string, section: Section): string {
    HeadingLine(section) + SectionContent(topic, section) + Rule
  }

  function Body(topic: string, sections: seq<Section>): string {
    if sections == [] then []
    else Body(topic, sections[..|sections| - 1]) + BodyEntry(topic, sections[|sections| - 1])
  }

  /** The whole Markdown document `generateArticleContent` returns. */
  function ArticleContent(topic: string, structure: ArticleStructure): string {
    Header(topic) + Toc(structure.sections) + Rule + Body(topic, structure.sections)
  }

  /** `generateArticleContent`, building the document line by line. */
  method GenerateArticleContent(topic: string, structure: ArticleStructure) returns (content: string)
    ensures content == ArticleContent(topic, structure)
  {
    content := TitleLine(topic);
    content := content + IntroLead(topic);
    content := content + IntroScope(topic);
    content := content + TocHeading;
    content := AppendToc(content, structure.sections);
    content := content + Rule;
    content := AppendBody(content, topic, structure.sections);
  }

  /** The `sections.forEach` loop writing the table of contents. */
  method AppendToc(start: string, sections: seq<Section>) returns (content: string)
    ensures content == start + Toc(sections)
  {
    content := start;
    var index := 0;
    while index < |sections|
      invariant index <= |sections|
      invariant content == start + Toc(sections[..index])
    {
      var section := sections[index];
      ghost var before := content;
      content := content + TocLine(index, section);
      content := AppendSubsections(content, section.subsections);
      assert sections[..index + 1][..index] == sections[..index];
      AppendAssoc(before, TocLine(index, section), SubsectionLines(section.subsections));
      AppendAssoc(start, Toc(sections[..index]), TocEntry(index, section));
      index := index + 1;
    }
    assert sections[..index] == sections;
  }

  /** The inner `subsections.forEach` loop writing one bullet per subsection. */
  method AppendSubsections(start: string, subs: seq<string>) returns (content: string)
    ensures content == start + SubsectionLines(subs)
  {
    content := start;
    var j := 0;
    while j < |subs|
      invariant j <= |subs|
      invariant content == start + SubsectionLines(subs[..j])
    {
      assert subs[..j + 1][..j] == subs[..j];
      AppendAssoc(start, SubsectionLines(subs[..j]), SubsectionLine(subs[j]));
      content := content + SubsectionLine(subs[j]);
      j := j + 1;
    }
    assert subs[..j] == subs;
  }

  /** The `for ... of` loop writing each section's heading, text and rule. */
  method AppendBody(start: string, topic: string, sections: seq<Section>) returns (content: string)
    ensures content == start + Body(topic, sections)
  {
    content := start;
    var k := 0;
    while k < |sections|
      invariant k <= |sections|
      invariant content == start + Body(topic, sections[..k])
    {
      var section := sections[k];
      ghost var before := content;
      var text := GenerateSectionContent(topic, section);
      content := content + HeadingLine(section);
      content := content + text;
      content := content + Rule;
      AppendAssoc(before, HeadingLine(section), text);
      AppendAssoc(before, HeadingLine(section) + text, Rule);
      assert content == before + BodyEntry(topic, section);
      assert sections[..k + 1][..k] == sections[..k];
      AppendAssoc(start, Body(topic, sections[..k]), BodyEntry(topic, section));
      k := k + 1;
    }
    assert sections[..k] == sections;
  }

  // ----- what the document contains -----

  lemma EntryMentionsHeading(topic: string, section: Section)
    ensures Contains(BodyEntry(topic, section), HeadingLine(section))
  {
    ContainsSelf(HeadingLine(section));
    ContainsLeft(HeadingLine(section), SectionContent(topic, section), HeadingLine(section));
    ContainsLeft(HeadingLine(section) + SectionContent(topic, section), Rule, HeadingLine(section));
  }

  /** Every section's heading line appears in the body. */
  lemma {:induction false} BodyMentionsSection(topic: string, sections: seq<Section>, i: nat)
    requires i < |sections|
    ensures Contains(Body(topic, sections), HeadingLine(sections[i]))
  {
    var n := |sections| - 1;
    if i == n {
      EntryMentionsHeading(topic, sections[n]);
      ContainsRight(Body(topic, sections[..n]), BodyEntry(topic, sections[n]), HeadingLine(sections[i]));
    } else {
      assert sections[..n][i] == sections[i];
      BodyMentionsSection(topic, sections[..n], i);
      ContainsLeft(Body(topic, sections[..n]), BodyEntry(topic, sections[n]), HeadingLine(sections[i]));
    }
  }

  lemma EntryLinksSection(index: nat, section: Section)
    ensures Contains(TocEntry(index, section), TocLink(section))
  {
    Mentions(NatToString(index + 1) + ". ", TocLink(section), "\n");
    ContainsLeft(TocLine(index, section), SubsectionLines(section.subsections), TocLink(section));
  }

  /** Every section has a `[title](#id)` link in the table of contents. */
  lemma {:induction false} TocLinksSection(sections: seq<Section>, i: nat)
    requires i < |sections|
    ensures Contains(Toc(sections), TocLink(sections[i]))
  {
    var n := |sections| - 1;
    if i == n {
      EntryLinksSection(n, sections[n]);
      ContainsRight(Toc(sections[..n]), TocEntry(n, sections[n]), TocLink(sections[i]));
    } else {
      assert sections[..n][i] == sections[i];
      TocLinksSection(sections[..n], i);
      ContainsLeft(Toc(sections[..n]), TocEntry(n, sections[n]), TocLink(sections[i]));
    }
  }

  /** The planned sections all appear, as links and as headings, in the document. */
  lemma ArticleMentionsEverySection(topic: string, structure: ArticleStructure, i: nat)
    requires i < |structure.sections|
    ensures Contains(ArticleContent(topic, structure), TocLink(structure.sections[i]))
    ensures Contains(ArticleContent(topic, structure), HeadingLine(structure.sections[i]))
  {
    var s := structure.sections;
    TocLinksSection(s, i);
    ContainsRight(Header(topic), Toc(s), TocLink(s[i]));
    ContainsLeft(Header(topic) + Toc(s), Rule, TocLink(s[i]));
    ContainsLeft(Header(topic) + Toc(s) + Rule, Body(topic, s), TocLink(s[i]));
    BodyMentionsSection(topic, s, i);
    ContainsRight(Header(topic) + Toc(s) + Rule, Body(topic, s), HeadingLine(s[i]));
  }

  /** The number of bullet lines in an entry when no subsection holds a line break. */
  lemma {:induction false} SubsectionLineCount(subs: seq<string>)
    requires forall k :: 0 <= k < |subs| ==> '\n' !in subs[k]
    ensures CountChar(SubsectionLines(subs), '\n') == |subs|
  {
    if subs != [] {
      var n := |subs| - 1;
      SubsectionLineCount(subs[..n]);
      CountCharAbsent("   - " + subs[n], '\n');
      CountCharAppend("   - " + subs[n], "\n", '\n');
      CountCharAppend(SubsectionLines(subs[..n]), SubsectionLine(subs[n]), '\n');
    }
  }

  /** Whether no title, id or subsection of the plan holds a line break. */
  predicate SingleLine(sections: seq<Section>) {
    forall k :: 0 <= k < |sections| ==>
      && '\n' !in sections[k].title
      && '\n' !in sections[k].id
      && forall m :: 0 <= m < |sections[k].subsections| ==> '\n' !in sections[k].subsections[m]
  }

  /** Sections plus subsections: the lines the table of contents should have. */
  function EntryCount(sections: seq<Section>): nat {
    if sections == [] then 0
    else EntryCount(sections[..|sections| - 1]) + 1 + |sections[|sections| - 1].subsections|
  }

  lemma NumberHasNoBreak(n: nat)
    ensures '\n' !in NatToString(n)
  {
    var num := NatToString(n);
    forall q | 0 <= q < |num| ensures num[q] != '\n' {
      assert IsDigit(num[q]);
    }
  }

  lemma TocLineCountOne(index: nat, section: Section)
    requires '\n' !in section.title && '\n' !in section.id
    ensures CountChar(TocLine(index, section), '\n') == 1
  {
    NumberHasNoBreak(index + 1);
    var line := NatToString(index + 1) + ". " + TocLink(section);
    assert '\n' !in line;
    CountCharAbsent(line, '\n');
    CountCharAppend(line, "\n", '\n');
  }

  /**
   * The table of contents has one line per section and one per subsection;
   * the count holds when no text of the plan contains a line break.
   */
  lemma {:induction false} TocLineCount(sections: seq<Section>)
    requires SingleLine(sections)
    ensures CountChar(Toc(sections), '\n') == EntryCount(sections)
  {
    if sections != [] {
      var n := |sections| - 1;
      var s := sections[n];
      assert SingleLine(sections[..n]) by {
        forall k | 0 <= k < n ensures sections[..n][k] == sections[k] { }
      }
      TocLineCount(sections[..n]);
      SubsectionLineCount(s.subsections);
      TocLineCountOne(n, s);
      CountCharAppend(TocLine(n, s), SubsectionLines(s.subsections), '\n');
      CountCharAppend(Toc(sections[..n]), TocEntry(n, s), '\n');
    }
  }

  // ----- the article record -----

  datatype Heading = Heading(level: nat, text: string, keywords: seq<string>)

  datatype SeoData = SeoData(
    metaTitle: string,
    metaDescription: string,
    targetKeywords: seq<string>,
    headings: seq<Heading>)

  datatype Article = Article(
    title: string,
    topic: string,
    content: string,
    wordCount: nat,
    structure: ArticleStructure,
    seoData: SeoData,
    readingTime: nat,
    publishedAt: string,
    lastUpdated: string)

  /** `Math.ceil(wordCount / 200)`: whole minutes at two hundred words a minute. */
  function ReadingTime(wordCount: nat): (r: nat)
    ensures wordCount <= 200 * r
    ensures r > 0 ==> 200 * (r - 1) < wordCount
  {
    (wordCount + 199) / 200
  }

  /** The heading list of the search metadata: one entry per planned section. */
  function Headings(sections: seq<Section>): (r: seq<Heading>)
    ensures |r| == |sections|
    ensures forall i :: 0 <= i < |r| ==>
      r[i] == Heading(sections[i].level, sections[i].title, sections[i].targetKeywords)
  {
    seq(|sections|, i requires 0 <= i < |sections| =>
      Heading(sections[i].level, sections[i].title, sections[i].targetKeywords))
  }

  function TargetKeywords(topic: string): (r: seq<string>)
    ensures |r| == 5 && r[0] == topic
    ensures forall i :: 0 <= i < |r| ==> StartsWith(r[i], topic)
  {
    [topic, topic + " とは", topic + " 方法", topic + " 始め方", topic + " 完全ガイド"]
  }

  function SeoDataOf(topic: string, structure: ArticleStructure): (d: SeoData)
    ensures StartsWith(d.metaTitle, topic) && StartsWith(d.metaDescription, topic)
    ensures d.targetKeywords == TargetKeywords(topic) && d.headings == Headings(structure.sections)
  {
    PrefixOfConcat(topic, "の完全ガイド | 初心者から上級者まで");
    PrefixOfConcat(topic, "について知りたいすべてがここに。基本概念から実践的な活用方法まで、専門家が徹底解説します。初心者でも安心して学べる完全ガイドです。");
    SeoData(
      topic + "の完全ガイド | 初心者から上級者まで",
      topic + "について知りたいすべてがここに。基本概念から実践的な活用方法まで、専門家が徹底解説します。初心者でも安心して学べる完全ガイドです。",
      TargetKeywords(topic),
      Headings(structure.sections))
  }

  /**
   * The article record around a finished document: its word count is the
   * number of pieces of a whitespace split of the untrimmed text, and its
   * reading time the word count over 200, rounded up.
   */
  function ArticleRecord(topic: string, structure: ArticleStructure, content: string,
                         publishedAt: string, lastUpdated: string): (a: Article)
    ensures a.title == ArticleTitle(topic) && a.topic == topic && a.content == content
    ensures a.structure == structure
    ensures a.wordCount == WordCount(content) >= 1
    ensures a.readingTime >= 1
    ensures a.wordCount <= 200 * a.readingTime < a.wordCount + 200
    ensures a.seoData.targetKeywords == TargetKeywords(topic)
    ensures a.seoData.headings == Headings(structure.sections)
    ensures a.publishedAt == publishedAt && a.lastUpdated == lastUpdated
  {
    var wordCount := WordCount(content);
    Article(
      ArticleTitle(topic),
      topic,
      content,
      wordCount,
      structure,
      SeoDataOf(topic, structure),
      ReadingTime(wordCount),
      publishedAt,
      lastUpdated)
  }

  /**
   * `generateArticle`: plans the twelve sections, builds the document and
   * wraps it in the article record. The two clock readings arrive as
   * parameters.
   */
  method GenerateArticle(topic: string, targetWordCount: nat, publishedAt: string, lastUpdated: string)
    returns (article: Article)
    ensures article == ArticleRecord(topic, DesignArticleStructure(topic, targetWordCount),
      ArticleContent(topic, DesignArticleStructure(topic, targetWordCount)), publishedAt, lastUpdated)
  {
    var structure := DesignArticleStructure(topic, targetWordCount);
    var content := GenerateArticleContent(topic, structure);
    article := ArticleRecord(topic, structure, content, publishedAt, lastUpdated);
  }

  /** The search metadata of a planned article lists one level-2 heading per section, in plan order. */
  lemma PlanHeadings(topic: string, targetWordCount: nat)
    ensures |Headings(DesignArticleStructure(topic, targetWordCount).sections)| == 12
    ensures forall i :: 0 <= i < 12 ==>
      && Headings(DesignArticleStructure(topic, targetWordCount).sections)[i].level == 2
      && Headings(DesignArticleStructure(topic, targetWordCount).sections)[i].text
         == DesignArticleStructure(topic, targetWordCount).sections[i].title
  {
  }

  /**
   * The POST handler: an absent or empty topic is a 400 error; an absent
   * target word count becomes 20000.
   */
  method HandleGenerateArticle(topic: Option<string>, targetWordCount: Option<nat>,
                               publishedAt: string, lastUpdated: string)
    returns (r: Response<Article>)
    ensures r.Error? <==> topic.None? || topic.value == []
    ensures r.Error? ==> r.status == 400 && r.message == TopicRequired
    ensures r.Ok? ==> r.body == ArticleRecord(topic.value,
      DesignArticleStructure(topic.value, targetWordCount.GetOr(DefaultTargetWordCount)),
      ArticleContent(topic.value, DesignArticleStructure(topic.value, targetWordCount.GetOr(DefaultTargetWordCount))),
      publishedAt, lastUpdated)
  {
    if topic.None? || topic.value == [] {
      return Error(400, TopicRequired);
    }
    var article := GenerateArticle(topic.value, targetWordCount.GetOr(DefaultTargetWordCount),
                                   publishedAt, lastUpdated);
    r := Ok(article);
  }

  // ----- the section plan's arithmetic -----

  function SumTenths(sections: seq<Section>): nat {
    if sections == [] then 0
    else SumTenths(sections[..|sections| - 1]) + sections[|sections| - 1].targetTenths
  }

  function SumNat(xs: seq<nat>): nat {
    if xs == [] then 0 else SumNat(xs[..|xs| - 1]) + xs[|xs| - 1]
  }

  lemma {:induction false} SumScaled(sections: seq<Section>, ms: seq<nat>, base: nat)
    requires |sections| == |ms|
    requires forall i :: 0 <= i < |ms| ==> sections[i].targetTenths == base * ms[i]
    ensures SumTenths(sections) == base * SumNat(ms)
  {
    if ms != [] {
      var n := |ms| - 1;
      SumScaled(sections[..n], ms[..n], base);
    }
  }

  /**
   * The section targets add up to 13.1 times `floor(target / 12)`, not to
   * the requested total: the plan overshoots a total divisible by twelve by
   * about nine per cent.
   */
  lemma PlanOvershoots(topic: string, targetWordCount: nat)
    ensures SumTenths(DesignArticleStructure(topic, targetWordCount).sections)
         == 131 * (targetWordCount / 12)
  {
    var s := DesignArticleStructure(topic, targetWordCount);
    SumScaled(s.sections, Multipliers, targetWordCount / 12);
    assert SumNat(Multipliers) == 131 by {
      var m := Multipliers;
      assert m[..1][..0] == [] && SumNat(m[..1]) == 12;
      assert m[..2][..1] == m[..1] && SumNat(m[..2]) == 22;
      assert m[..3][..2] == m[..2] && SumNat(m[..3]) == 35;
      assert m[..4][..3] == m[..3] && SumNat(m[..4]) == 50;
      assert m[..5][..4] == m[..4] && SumNat(m[..5]) == 62;
      assert m[..6][..5] == m[..5] && SumNat(m[..6]) == 72;
      assert m[..7][..6] == m[..6] && SumNat(m[..7]) == 83;
      assert m[..8][..7] == m[..7] && SumNat(m[..8]) == 96;
      assert m[..9][..8] == m[..8] && SumNat(m[..9]) == 106;
      assert m[..10][..9] == m[..9] && SumNat(m[..10]) == 116;
      assert m[..11][..10] == m[..10] && SumNat(m[..11]) == 124;
      assert m[..11] == m[..|m| - 1];
    }
  }
}
