# Article assistant: rule engine, signal extractor, generators and project stores

This project models, in Dafny, the deterministic core of a web tool that
helps site owners plan SEO content. The tool has four API routes and two project stores.

- **Site analysis** (`analyze-site`) pulls signals out of a fetched HTML page:
  - the first title, description and keywords meta tags;
  - every h1/h2/h3 heading with its inner tags stripped;
  - the images and how many lack an alt text, with a rounded "alt optimisation rate";
  - internal and external links;
  - a whole-document word count;
  - Open Graph, Twitter Card and JSON-LD flags.
- **SEO suggestions** (`seo-suggestions`) is a fixed rule engine. It inspects the same
  signals and emits an ordered list of suggestions, each with a category, a priority
  and Japanese prose. The checks run in this order: title, description, H1, heading
  hierarchy, alt texts, internal links, scripts, stylesheets.
- **Topic cluster** (`topic-cluster`) builds a cluster from templates and scores it:
  - a pillar article;
  - eight cluster articles;
  - keyword lists;
  - a content strategy;
  - an SEO score between 65 and 100.
- **Article generation** (`generate-article`) works in three steps:
  - it plans twelve sections, whose target word counts are multiples of
    `floor(target / 12)`;
  - it fills each section from a per-id template, padding it with a "詳細解説"
    paragraph when it falls short of 80% of its target;
  - it assembles a Markdown article with a table of contents, SEO data and a reading time.
- **`ProjectManager`** keeps every project with its results as one JSON array under
  `article-assistant-projects`. Project ids are derived from the URL, via base64 with only
  alphanumerics kept, cut to 16 characters.
- **`ProjectStorage`** keeps the same data in separate keys:
  - a list of projects;
  - one data record per project;
  - the id of the current project.
  Every operation is a no-op when there is no `window`.

Regular-expression matches are not re-implemented. The modelled functions take what the
patterns matched (`PageSignals`, `Markup`) as input; for links this is the result of
the inner, case-sensitive `href=` match of each outer match, which may fail (`None`).
From those inputs on, these steps are modelled on `seq<char>`, following JavaScript's
string semantics: `includes`, `startsWith`, `indexOf`, `split`, `trim`, `replace` with a
string pattern, tag stripping, whitespace splitting and number formatting. Their limits
are listed under "## Left out".

Design choices:
- Floating-point section multipliers (1.2, 1.3, 0.8, …) are kept as integer tenths.
- `Math.round` is half-up on a non-negative ratio. `Math.ceil(n / 200)` is `(n + 199) / 200`.
- Clocks and random values are parameters.
- Local storage is the fields of the two store classes.
- Store methods that change local storage are `modifies this` methods. Their `ensures`
  state the new contents of every key and the read-back properties callers rely on.

Points where the code does less than one might expect, modelled as written:
- A project id is not a unique function of its URL.
  - `ProjectStorage.createProjectFromUrl` uses a random id.
  - `ProjectManager.generateProjectId` is deterministic but not injective. Two URLs that
    share their first twelve characters get the same id, provided those twelve characters
    encode to sixteen letters and digits (`Base64.SharedBeginningCollides`).
  - `https://www.` is such a beginning: every URL starting with it gets the id
    `aHR0cHM6Ly93d3cu` (`Base64.WwwUrlsShareId`).
- Creating a project does not make it findable by URL.
  - `createProject` does not persist anything: only a later `saveProject` makes it findable.
  - What the model proves is that a saved project is found
    (`Manager.ProjectManager.SaveProject`, `Manager.ProjectManager.GetProjectByUrl`).
- The alt-text rule differs between the two routes.
  - The rule engine flags an image only when it has no `alt=` or has `alt=""`.
  - The analyzer also counts `alt=''` as missing.
  - Both rules are modelled as written, and their relation is proved
    (`AnalyzeSite.RuleEngineCountsFewer`).

## Model

| member | source | states |
|---|---|---|
| `Text.IndexOf` | src/app/api/analyze-site/route.ts:103-105 | `indexOf`: -1 exactly when the pattern occurs nowhere, otherwise the first position where it occurs (so `includes` is `IndexOf >= 0`) |
| `Text.IndexOfFirst` | src/utils/projectStorage.ts:85 | a position where the pattern occurs, with no earlier occurrence, is what `indexOf` returns |
| `Text.ContainsIff` | src/app/api/analyze-site/route.ts:103-105 | `includes` is true exactly when the pattern occurs at some position |
| `Text.PrefixOfConcat` | src/app/api/analyze-site/route.ts:76 | `startsWith` holds of every string that begins with the prefix |
| `Text.ReplaceFirst` | src/utils/projectStorage.ts:85 | `replace` with a string pattern changes only the first occurrence, and nothing when the pattern is absent |
| `Text.Trim` | src/app/api/analyze-site/route.ts:87-88 | `trim` returns a contiguous slice whose two ends are not whitespace and whose cut-off prefix and suffix are all whitespace |
| `Text.SplitOn` | src/app/api/analyze-site/route.ts:89 | `split(',')` yields one more piece than there are commas, and no piece contains a comma |
| `Text.JoinSplitOn` | src/app/api/analyze-site/route.ts:89 | joining the pieces of `split(c)` with `c` gives back the original string |
| `Text.SplitOnFirst` | src/app/api/analyze-site/route.ts:89 | splitting `a + c + b` with no `c` in `a` yields `a` followed by the pieces of `b` |
| `Text.SplitSpaces` | src/app/api/generate-article/route.ts:38 | `split(/\s+/)` yields at least one piece, and no piece contains whitespace |
| `Text.WordCount` | src/app/api/generate-article/route.ts:38 | the number of pieces of `split(/\s+/)` is at least one |
| `Text.WordCountRuns` | src/app/api/generate-article/route.ts:38 | the number of pieces of `split(/\s+/)` is exactly the number of maximal whitespace runs plus one |
| `Text.WordCountNoSpace` | src/app/api/generate-article/route.ts:38 | a string without whitespace splits into itself alone |
| `Text.WordCountBound` | src/app/api/generate-article/route.ts:38 | the word count is at most the number of whitespace characters plus one |
| `Text.StripTags` | src/app/api/analyze-site/route.ts:102 | removing `<[^>]*>` never lengthens the text |
| `Text.StripTagsPlain` | src/app/api/analyze-site/route.ts:60-62 | removing `<[^>]*>` leaves text with no `<` unchanged |
| `Text.StripTagsTag` | src/app/api/analyze-site/route.ts:60-62 | removing `<[^>]*>` deletes a whole tag |
| `Text.ToLowerAscii` | src/app/api/generate-article/route.ts:446 | `toLowerCase` keeps the length, turns each ASCII capital into its small letter (code point plus 32) and keeps every other character; no upper-case ASCII letter remains |
| `Text.NatToString` | src/app/api/seo-suggestions/route.ts:55 | a number's decimal text is non-empty, all digits, and has no leading zero |
| `Text.NatToStringRoundTrip` | src/app/api/seo-suggestions/route.ts:55 | reading a number's decimal text back gives the number |
| `Text.NatToStringInjective` | src/app/api/seo-suggestions/route.ts:107 | different counts are written as different texts, so a suggestion's description determines the count it reports |
| `Text.CountCharAppend` | src/app/api/analyze-site/route.ts:89 | comma counts add over concatenation |
| `Text.ContainsInfix` | src/app/api/analyze-site/route.ts:103-105 | `includes` is preserved by adding text on either side |
| `Links.CountInternal` | src/app/api/analyze-site/route.ts:72-77 | the internal links (the inner match succeeds and its href starts with `/` or contains the hostname) are at most all links |
| `Links.CountExternal` | src/app/api/analyze-site/route.ts:78-83 | the external links (the inner match succeeds and its href starts with `http` and does not contain the hostname) are at most all links |
| `Links.Disjoint` | src/app/api/analyze-site/route.ts:72-83 | no href is both internal and external |
| `Links.RootRelativeInternal` | src/app/api/analyze-site/route.ts:72-83 | a link `/...` is internal and not external |
| `Links.AbsoluteLinkClass` | src/app/api/analyze-site/route.ts:72-83 | a link `http...` is internal exactly when it contains the hostname and external exactly when it does not |
| `Links.Unclassified` | src/app/api/analyze-site/route.ts:72-83 | an href that starts with neither `/` nor `http` and lacks the hostname is neither internal nor external |
| `Links.InternalPlusExternal` | src/app/api/analyze-site/route.ts:96-100 | the internal count plus the external count never exceeds the total |
| `Links.UnmatchedUnclassified` | src/app/api/analyze-site/route.ts:70-83 | a link whose case-sensitive inner `href=` match fails (`<A HREF=...>`) adds one to the total and nothing to either the internal or the external count |
| `Links.CountInternalPositive` | src/app/api/seo-suggestions/route.ts:169-180 | the internal count is positive exactly when some link's inner match succeeds with an internal href |
| `SeoSuggestions.TitleCheck` | src/app/api/seo-suggestions/route.ts:39-67 | a suggestion exactly when the title is missing, shorter than 30 or longer than 60; high priority exactly when missing; otherwise medium, "too short" exactly below 30, "too long" exactly above 60, and the description mentions the length |
| `SeoSuggestions.DescriptionCheck` | src/app/api/seo-suggestions/route.ts:70-90 | a suggestion exactly when the description is missing or shorter than 120; high exactly when missing; otherwise medium and the length is mentioned |
| `SeoSuggestions.H1Check` | src/app/api/seo-suggestions/route.ts:93-110 | a suggestion exactly when the number of H1 matches is not 1; high exactly for none, medium exactly for several, and the count is mentioned |
| `SeoSuggestions.AnalyzeHeadingStructure` | src/app/api/seo-suggestions/route.ts:159-167 | well structured exactly when there is one H1 and, if there is any H3, there is also an H2 |
| `SeoSuggestions.HeadingCheck` | src/app/api/seo-suggestions/route.ts:113-122 | a medium content-structure suggestion exactly when the H1 count is not 1 or there are H3s without any H2 |
| `SeoSuggestions.CountLacksAlt` | src/app/api/seo-suggestions/route.ts:126 | the images without alt text are at most all images |
| `SeoSuggestions.CountLacksAltPositive` | src/app/api/seo-suggestions/route.ts:126-127 | the count is positive exactly when some image has no `alt=` or has `alt=""` |
| `SeoSuggestions.AltCheck` | src/app/api/seo-suggestions/route.ts:124-135 | a medium accessibility suggestion exactly when some image lacks alt text, mentioning how many do |
| `SeoSuggestions.AnalyzeInternalLinks` | src/app/api/seo-suggestions/route.ts:169-180 | the count is at most the number of hrefs, and positive exactly when some href is internal |
| `SeoSuggestions.LinkCheck` | src/app/api/seo-suggestions/route.ts:137-147 | a low link-structure suggestion exactly when fewer than 5 links are internal, mentioning the count |
| `SeoSuggestions.ScriptCheck` | src/app/api/seo-suggestions/route.ts:185-195 | a medium performance suggestion exactly when more than 10 scripts are loaded, its description naming the count |
| `SeoSuggestions.StylesheetCheck` | src/app/api/seo-suggestions/route.ts:197-207 | a low performance suggestion exactly when more than 5 stylesheets are loaded, its description naming the count |
| `SeoSuggestions.PerformanceIssues` | src/app/api/seo-suggestions/route.ts:182-210 | at most two suggestions, all about performance; with both limits exceeded, the medium script one comes before the low stylesheet one |
| `SeoSuggestions.AnalyzePerformanceIssues` | src/app/api/seo-suggestions/route.ts:182-210 | the pushes build exactly `PerformanceIssues` |
| `SeoSuggestions.Suggestions` | src/app/api/seo-suggestions/route.ts:36-153 | the engine emits at most eight suggestions |
| `SeoSuggestions.GenerateSeoSuggestions` | src/app/api/seo-suggestions/route.ts:36-153 | the push sequence builds exactly the ordered list of fired checks, at most eight |
| `SeoSuggestions.MissingEverything` | src/app/api/seo-suggestions/route.ts:36-153 | a page with no title, no description, no H1 and three images without alt gets the five matching suggestions, in source order, before the link and performance ones |
| `SeoSuggestions.AltMissingMentionsThree` | src/app/api/seo-suggestions/route.ts:132 | the alt suggestion for three images mentions "3" |
| `SeoSuggestions.CleanPage` | src/app/api/seo-suggestions/route.ts:36-153 | a page that meets every threshold gets no suggestion |
| `SeoSuggestions.SingleQuotedAltPasses` | src/app/api/seo-suggestions/route.ts:126 | the rule engine accepts an image whose only alt is `alt=''` |
| `AnalyzeSite.TitleOf` | src/app/api/analyze-site/route.ts:87 | the trimmed title, or "タイトルなし" when none matched |
| `AnalyzeSite.DescriptionOf` | src/app/api/analyze-site/route.ts:88 | the trimmed description, or "説明なし" when none matched |
| `AnalyzeSite.Keywords` | src/app/api/analyze-site/route.ts:89 | no keywords without a match; otherwise one per comma plus one, none containing a comma, each trimmed |
| `AnalyzeSite.KeywordsFirst` | src/app/api/analyze-site/route.ts:89 | the first keyword is the trimmed text before the first comma, followed by the keywords of the rest |
| `AnalyzeSite.HeadingTexts` | src/app/api/analyze-site/route.ts:59-63 | one heading text per match |
| `AnalyzeSite.HeadingText` | src/app/api/analyze-site/route.ts:60-62 | stripping the tags from `<hN attrs>text</hN>` gives back the text |
| `AnalyzeSite.HeadingTextsOfMatches` | src/app/api/analyze-site/route.ts:59-63 | over a list of such matches, the heading texts are exactly the inner texts |
| `AnalyzeSite.CountMissingAlt` | src/app/api/analyze-site/route.ts:67 | the images counted as lacking alt are at most all images |
| `AnalyzeSite.RuleEngineCountsFewer` | src/app/api/analyze-site/route.ts:67 | the rule engine never counts more images without alt than the analyzer does |
| `AnalyzeSite.SingleQuotedAltMissing` | src/app/api/analyze-site/route.ts:67 | an image whose only alt is `alt=''` lacks alt for the analyzer but not for the rule engine |
| `AnalyzeSite.NoAltFlaggedByBoth` | src/app/api/analyze-site/route.ts:67 | an image tag without `alt=` (such as `<img src="a.png">`) is flagged by the analyzer and by the rule engine |
| `AnalyzeSite.NoEqualsFlaggedByBoth` | src/app/api/analyze-site/route.ts:67 | in particular a tag with no `=` at all is flagged by both |
| `AnalyzeSite.EmptyAltFlaggedByBoth` | src/app/api/analyze-site/route.ts:67 | an image tag with `alt=""` is flagged by both |
| `AnalyzeSite.UnquotedAltPasses` | src/app/api/analyze-site/route.ts:67 | an image tag with `alt=` and no quote character is flagged by neither |
| `AnalyzeSite.RoundedPercent` | src/app/api/analyze-site/route.ts:94 | `Math.round(x / t * 100)` is at most 100 and lies within half a unit of the exact percentage |
| `AnalyzeSite.HalfUpBounds` | src/app/api/analyze-site/route.ts:94 | the integer half-up formula meets those bounds |
| `AnalyzeSite.AltRate` | src/app/api/analyze-site/route.ts:94 | 0 for no images; otherwise the percentage of images with alt, rounded half-up, at most 100 |
| `AnalyzeSite.AltOptimizationRate` | src/app/api/analyze-site/route.ts:94 | at most 100, 0 without images, otherwise within half a unit of the exact percentage of images with alt |
| `AnalyzeSite.FullRate` | src/app/api/analyze-site/route.ts:94 | the rate is 100 exactly when at most one image in 200 lacks alt (not only when none does) |
| `AnalyzeSite.PercentIsFull` | src/app/api/analyze-site/route.ts:94 | the same equivalence over plain counts |
| `AnalyzeSite.NoMissingAltIsFull` | src/app/api/analyze-site/route.ts:94 | with images and none missing alt, the rate is 100 |
| `AnalyzeSite.ContentWordCount` | src/app/api/analyze-site/route.ts:102 | the word count of the tag-stripped, trimmed text is at least one |
| `AnalyzeSite.ContentWordCountRuns` | src/app/api/analyze-site/route.ts:102 | the word count is one more than the number of whitespace runs in the tag-stripped, trimmed text |
| `AnalyzeSite.OnlyTagsIsOneWord` | src/app/api/analyze-site/route.ts:102 | a page that is a single tag counts one word (the empty piece) |
| `AnalyzeSite.Analyze` | src/app/api/analyze-site/route.ts:85-108 | the record carries the URL and time; the title, description and keywords of the matches; the stripped heading texts; image total, missing-alt count and rate; the internal, external and total link counts (internal plus external at most total); the content word count; and each flag as `includes` of its marker |
| `AnalyzeSite.SocialFlags` | src/app/api/analyze-site/route.ts:103-105 | each flag is set exactly when its marker (`og:`, `twitter:`, `application/ld+json`) occurs at some position; `pre + marker + post` sets it; without `:` neither social flag is set; without `+` there is no structured-data flag |
| `TopicCluster.Prefixed` | src/app/api/topic-cluster/route.ts:186 | one keyword per term, each starting with the topic and a space |
| `TopicCluster.PrefixedRoundTrip` | src/app/api/topic-cluster/route.ts:186 | dropping the topic and the space from a keyword gives back its term |
| `TopicCluster.GeneratePillarContent` | src/app/api/topic-cluster/route.ts:47-64 | the title and the four target keywords start with the topic, the first keyword is the topic, 15000 words, eight outline items, the first seven starting with the topic |
| `TopicCluster.Article` | src/app/api/topic-cluster/route.ts:66-148 | a cluster article's title and keywords start with the topic, and it keeps its type, word count and difficulty |
| `TopicCluster.ContentTypesMembers` | src/app/api/topic-cluster/route.ts:230 | a content type is in the set exactly when some article has it |
| `TopicCluster.ContentTypesBound` | src/app/api/topic-cluster/route.ts:230 | there are no more content types than articles |
| `TopicCluster.GenerateClusterTopics` | src/app/api/topic-cluster/route.ts:66-148 | the pushes build exactly the eight planned articles in source order, each with its title suffix, keywords, type, word count, difficulty and volume; so 31300 words, seven content types and all three levels |
| `TopicCluster.ClusterPlanAbout` | src/app/api/topic-cluster/route.ts:66-148 | every planned title starts with the topic, every keyword with the topic and a space |
| `TopicCluster.ClusterPlanWords` | src/app/api/topic-cluster/route.ts:66-148 | the planned word counts add up to 31300 |
| `TopicCluster.ClusterPlanTypes` | src/app/api/topic-cluster/route.ts:66-148 | the plan uses seven distinct content types and includes beginner, intermediate and advanced articles |
| `TopicCluster.SumSnoc` | src/app/api/topic-cluster/route.ts:226 | the `reduce` sum grows by each article’s word count |
| `TopicCluster.ContentTypesSnoc` | src/app/api/topic-cluster/route.ts:230 | the content-type set grows by each article’s type |
| `TopicCluster.ClusterContentTypesCount` | src/app/api/topic-cluster/route.ts:66-148 | the eight templates use seven distinct content types |
| `TopicCluster.GenerateRelatedKeywords` | src/app/api/topic-cluster/route.ts:178-187 | nineteen related keywords, each the topic, a space and a term |
| `TopicCluster.GenerateKeywords` | src/app/api/topic-cluster/route.ts:150-176 | 4 primary keywords (the first is the topic), 6 secondary, 6 long-tail and 19 related, every other keyword starting with the topic and a space |
| `TopicCluster.GenerateContentStrategy` | src/app/api/topic-cluster/route.ts:189-216 | one article more than there are cluster articles, and four items in each list |
| `TopicCluster.AverageTest` | src/app/api/topic-cluster/route.ts:226-227 | "average above 3000" in real division is the integer test `sum > 3000 * n`, and false for no articles |
| `TopicCluster.CalculateSeoScore` | src/app/api/topic-cluster/route.ts:218-242 | the score is 100 less 10 for a pillar of at most 10000 words and less 5 for each other unmet criterion (fewer than 4 target keywords, average not above 3000, fewer than 4 content types, a missing level, fewer than 8 articles); so between 65 and 100, exactly 100 when all six criteria hold and exactly 65 when none does |
| `TopicCluster.GenerateTopicCluster` | src/app/api/topic-cluster/route.ts:27-45 | the cluster carries the topic and time, the pillar content, the eight planned articles (all about the topic), the keywords and strategy generated for the topic, a strategy of nine articles and a score of 100 |
| `TopicCluster.HandleTopicCluster` | src/app/api/topic-cluster/route.ts:4-25 | a 400 "トピックが必要です" exactly when the topic is missing or empty; otherwise the cluster for it: the topic, its pillar content, the eight planned articles, its keywords and strategy, the time, and a score of 100 |
| `ArticleTemplates.DesignArticleStructure` | src/app/api/generate-article/route.ts:64-217 | twelve level-2 sections in the fixed id order, each aiming at `floor(target / 12)` times its multiplier; the total is the target |
| `ArticleTemplates.PlannedSection` | src/app/api/generate-article/route.ts:64-217 | the i-th planned section has the i-th id, level 2 and the i-th multiplier |
| `ArticleTemplates.SectionIdsDistinct` | src/app/api/generate-article/route.ts:64-217 | the twelve section ids are pairwise distinct, so each of them selects one template |
| `ArticleTemplates.KnownIdTemplate` | src/app/api/generate-article/route.ts:250-434 | a section with one of the twelve ids gets that id's template lines |
| `ArticleTemplates.UnknownIdDefault` | src/app/api/generate-article/route.ts:435-436 | any other id gets the single default line naming the section title |
| `ArticleTemplates.PlannedSectionLines` | src/app/api/generate-article/route.ts:249-437 | every planned section gets its own template |
| `GenerateArticle.ArticleTitle` | src/app/api/generate-article/route.ts:35 | the article title starts with the topic |
| `GenerateArticle.SectionContent` | src/app/api/generate-article/route.ts:249-450 | the text starts with the joined template lines; it is exactly them when the section reaches 80% of its target, and otherwise continues with the "詳細解説" padding |
| `GenerateArticle.NeedsPaddingReal` | src/app/api/generate-article/route.ts:443 | the integer padding test is `currentWordCount < targetWordCount * 0.8` in exact arithmetic |
| `GenerateArticle.GenerateSectionContent` | src/app/api/generate-article/route.ts:249-450 | the three appends produce exactly the section content |
| `GenerateArticle.SmallTargetUnpadded` | src/app/api/generate-article/route.ts:439-448 | with a target below twelve words every section target is 0, so no section is padded |
| `GenerateArticle.PaddingMentions` | src/app/api/generate-article/route.ts:445-447 | the padding contains the "詳細解説" heading and the topic with the lower-cased title |
| `GenerateArticle.PaddedSectionsMentionDetail` | src/app/api/generate-article/route.ts:443-448 | a section that falls short carries the heading and the topic with its title |
| `GenerateArticle.GenerateArticleContent` | src/app/api/generate-article/route.ts:219-247 | the appends build exactly header, table of contents, rule and body |
| `GenerateArticle.AppendToc` | src/app/api/generate-article/route.ts:228-233 | the table-of-contents loop appends exactly the entries of all sections |
| `GenerateArticle.AppendSubsections` | src/app/api/generate-article/route.ts:230-232 | the inner loop appends one indented line per subsection |
| `GenerateArticle.AppendBody` | src/app/api/generate-article/route.ts:237-244 | the body loop appends, per section, its heading, its content and a rule |
| `GenerateArticle.BodyMentionsSection` | src/app/api/generate-article/route.ts:237-244 | the body contains every section's heading line |
| `GenerateArticle.TocLinksSection` | src/app/api/generate-article/route.ts:228-233 | the table of contents links every section by title and id |
| `GenerateArticle.ArticleMentionsEverySection` | src/app/api/generate-article/route.ts:219-247 | the article contains every section's link and heading |
| `GenerateArticle.SubsectionLineCount` | src/app/api/generate-article/route.ts:230-232 | single-line subsections add exactly one line each |
| `GenerateArticle.TocLineCount` | src/app/api/generate-article/route.ts:228-233 | the table of contents has one line per section plus one per subsection |
| `GenerateArticle.ReadingTime` | src/app/api/generate-article/route.ts:56 | `ceil(words / 200)`: the least number of 200-word minutes that covers the words |
| `GenerateArticle.Headings` | src/app/api/generate-article/route.ts:51-55 | one heading per section, carrying its level, title and keywords |
| `GenerateArticle.TargetKeywords` | src/app/api/generate-article/route.ts:44-50 | five keywords, the first the topic, all starting with it |
| `GenerateArticle.SeoDataOf` | src/app/api/generate-article/route.ts:40-55 | the meta title and description start with the topic; the target keywords and one heading per section |
| `GenerateArticle.ArticleRecord` | src/app/api/generate-article/route.ts:34-59 | the record's title, topic, content and structure; a word count of at least one; a reading time covering it by less than 200 words; SEO keywords and headings; the two timestamps |
| `GenerateArticle.GenerateArticle` | src/app/api/generate-article/route.ts:27-62 | the article is the record of the planned structure and the content assembled from it |
| `GenerateArticle.PlanHeadings` | src/app/api/generate-article/route.ts:51-55 | a planned article has twelve level-2 headings carrying the section titles |
| `GenerateArticle.HandleGenerateArticle` | src/app/api/generate-article/route.ts:4-25 | a 400 exactly when the topic is missing or empty; otherwise the article, with a target of 20000 words by default |
| `GenerateArticle.SumScaled` | src/app/api/generate-article/route.ts:65-217 | sections scaled from one base sum to the base times the sum of the multipliers |
| `GenerateArticle.PlanOvershoots` | src/app/api/generate-article/route.ts:64-217 | the section targets add up to 13.1 times `floor(target / 12)` (131 tenths), not to the recorded total |
| `ProjectTypes.WithData` | src/types/project.ts:38-40 | a project with data keeps the project's fields |
| `Base64.Encode` | src/utils/projectManager.ts:7 | `btoa` of a Latin-1 string has four characters per started group of three |
| `Base64.DecodeEncode` | src/utils/projectManager.ts:7 | decoding the encoding gives back the string |
| `Base64.EncodeAppend` | src/utils/projectManager.ts:7 | encoding distributes over concatenation at a multiple of three |
| `Base64.KeepAlnum` | src/utils/projectManager.ts:7 | removing `[^a-zA-Z0-9]` keeps exactly the letters and digits, never lengthens the string, and leaves only letters and digits |
| `Base64.KeepAlnumSingle` | src/utils/projectManager.ts:7 | a single character is kept exactly when it is a letter or a digit |
| `Base64.KeepAlnumAppend` | src/utils/projectManager.ts:7 | removing those characters distributes over concatenation |
| `Base64.KeepAlnumAll` | src/utils/projectManager.ts:7 | removing them is the identity on an alphanumeric string |
| `Base64.Take16` | src/utils/projectManager.ts:7 | `substring(0, 16)` is a prefix of at most 16 characters, exactly 16 for a long input, the whole of a short one |
| `Base64.ProjectId` | src/utils/projectManager.ts:6-8 | the id is the prefix of the filtered encoding of length 16, or all of it when it is shorter; only letters and digits |
| `Base64.SharedBeginningCollides` | src/utils/projectManager.ts:6-8 | two URLs whose first twelve characters agree get the same id when those twelve characters encode to sixteen letters and digits |
| `Base64.IdOfLongBeginning` | src/utils/projectManager.ts:6-8 | when the first twelve characters already give 16 alphanumerics, they alone decide the id |
| `Base64.EncodeTwelve` | src/utils/projectManager.ts:7 | twelve bytes encode to four groups of four digits |
| `Base64.WwwEncoding` | src/utils/projectManager.ts:7 | `https://www.` encodes to `aHR0cHM6Ly93d3cu` |
| `Base64.IdOfAlnumBeginning` | src/utils/projectManager.ts:6-8 | a twelve-character beginning whose encoding is sixteen letters and digits is the id of every URL that starts with it |
| `Base64.WwwUrlsShareId` | src/utils/projectManager.ts:6-8 | every URL that starts with `https://www.` has the id `aHR0cHM6Ly93d3cu` |
| `Manager.FindIndex` | src/utils/projectManager.ts:12 | `findIndex` gives the first position holding the id, or -1 exactly when none does |
| `Manager.Find` | src/utils/projectManager.ts:35 | `find` returns nothing exactly when no project holds the id, otherwise the project at `findIndex` |
| `Manager.Upsert` | src/utils/projectManager.ts:10-21 | the first project with the id is replaced, or the project is appended; everything else stays; the id then finds the project |
| `Manager.UpsertIdempotent` | src/utils/projectManager.ts:10-21 | saving the same project twice is saving it once |
| `Manager.UpsertKeepsOthers` | src/utils/projectManager.ts:10-21 | saving a project does not change what any other id finds |
| `Manager.RemoveId` | src/utils/projectManager.ts:98 | the filter removes exactly the projects holding the id, and keeps the length exactly when none does |
| `Manager.RemoveIdAppend` | src/utils/projectManager.ts:98 | the filter keeps order: it distributes over concatenation |
| `Manager.GenerateProjectId` | src/utils/projectManager.ts:6-8 | the id is the prefix of the filtered encoding of length 16, or all of it when shorter; only letters and digits |
| `Manager.CreateProject` | src/utils/projectManager.ts:43-55 | the id from the URL; the given name, or "Project " and the id when it is missing or empty; both timestamps equal; no data |
| `Manager.TopicOr` | src/utils/projectManager.ts:80 | `additionalData?.topic \|\| ''` |
| `Manager.WithResult` | src/utils/projectManager.ts:69-90 | exactly the chosen kind of result is replaced, stamped with the time (and the topic for clusters and articles); the other three stay |
| `Manager.ProjectManager.GetAllProjects` | src/utils/projectManager.ts:23-31 | the stored list, or none when the key is missing or does not parse |
| `Manager.ProjectManager.GetProject` | src/utils/projectManager.ts:33-36 | nothing exactly when no stored project holds the id, otherwise the first one that does |
| `Manager.ProjectManager.GetProjectByUrl` | src/utils/projectManager.ts:38-41 | the stored project found for the id derived from the URL |
| `Manager.ProjectManager.SaveProject` | src/utils/projectManager.ts:10-21 | the key now holds the upserted list, so the project's id finds it |
| `Manager.ProjectManager.UpdateProjectData` | src/utils/projectManager.ts:57-94 | nothing is written and null returned exactly when the id is unknown; otherwise the found project, with the time and the chosen result written, is saved and returned, and its id finds it |
| `Manager.ProjectManager.DeleteProject` | src/utils/projectManager.ts:96-106 | true exactly when some project held the id; then the filtered list is stored, otherwise nothing changes; afterwards no project holds the id |
| `Storage.DataKey` | src/utils/projectStorage.ts:3-7 | `project-data-` followed by the id, distinct from the other keys of both stores |
| `Storage.FindProjectIndex` | src/utils/projectStorage.ts:19 | the first position holding the id, or -1 exactly when none does |
| `Storage.Saved` | src/utils/projectStorage.ts:16-28 | a known id has its first project overwritten by the new fields with a fresh `updatedAt`; a new id appends the project unchanged; the rest stays |
| `Storage.SavedFinds` | src/utils/projectStorage.ts:16-28 | after saving, the id is found with the saved name, URL and creation time |
| `Storage.RemoveProject` | src/utils/projectStorage.ts:32 | the filter removes exactly the projects holding the id |
| `Storage.Touched` | src/utils/projectStorage.ts:52-57 | only the given project's `updatedAt` changes |
| `Storage.CreateProjectFromUrl` | src/utils/projectStorage.ts:83-94 | the name is the hostname with its first "www." removed, followed by "のプロジェクト" |
| `Storage.LeadingWwwDropped` | src/utils/projectStorage.ts:85 | a leading "www." is removed |
| `Storage.InnerWwwDropped` | src/utils/projectStorage.ts:85 | a "www." inside the hostname is removed too, since `replace` finds the first occurrence anywhere |
| `Storage.ProjectStorage.GetProjects` | src/utils/projectStorage.ts:10-14 | the stored list, or none without a window or without the key |
| `Storage.ProjectStorage.SaveProject` | src/utils/projectStorage.ts:16-28 | with a window the list is replaced by the saved one; the other keys are unchanged |
| `Storage.ProjectStorage.DeleteProject` | src/utils/projectStorage.ts:30-39 | the list is filtered, the data key removed, and the current id cleared exactly when it was this project; afterwards neither the project nor its data is found |
| `Storage.ProjectStorage.GetProjectData` | src/utils/projectStorage.ts:41-45 | the stored data, or `{}` without a window or without the key |
| `Storage.ProjectStorage.SaveProjectData` | src/utils/projectStorage.ts:47-58 | the data key is written, and the project's `updatedAt` only when it exists; reading the data back gives it |
| `Storage.ProjectStorage.GetProjectWithData` | src/utils/projectStorage.ts:60-67 | null exactly when no project holds the id, otherwise that project joined with its stored data |
| `Storage.ProjectStorage.GetCurrentProjectId` | src/utils/projectStorage.ts:69-72 | the stored id, or "" without a window or without the key |
| `Storage.ProjectStorage.SetCurrentProject` | src/utils/projectStorage.ts:74-77 | with a window the current id is set and reads back as the given id; nothing else changes |

## Left out

- The regular expressions in both page routes are not modelled. Their matches (title,
  description, keywords, heading matches, `<img>` tags, hrefs, script and stylesheet tags,
  H1 text matches) are the inputs `PageSignals` and `Markup`.
- `fetch`, the HTTP handlers of `analyze-site` and `seo-suggestions`, and their 400/500
  responses are outside the model: they are network and framework plumbing.
  - The handlers of `topic-cluster` and `generate-article` are modelled.
  - Their "throw gives 500" path is left out, because nothing in the modelled code throws.
- `new URL(url).hostname` is not modelled: the hostname is a parameter wherever the code
  derives it.
- `JSON.parse` and `JSON.stringify` are the identity on the stored lists. A key whose text
  does not parse is a separate state for `ProjectManager`, where it yields `[]`.
  - For `ProjectStorage` that exception is not modelled: it would escape the method.
  - A parseable value that is not an array is not modelled either.
- `src/lib/gemini.ts` is not part of this model: none of the modelled routes call it.
- `Date.now()`, `new Date().toISOString()` and `Math.random()` are not modelled; the times
  they produce are parameters.
  - For this reason `ProjectStorage.generateProjectId` is left out: its id is random.
  - The model's `Storage.CreateProjectFromUrl` takes the id as a parameter.
- `Base64.ProjectId`: `btoa` throws on characters above U+00FF. Callers are required to
  pass Latin-1 URLs, so the throwing path is not modelled.
- Floating-point arithmetic is not modelled; it is replaced by exact integers.
  - Section targets are integer tenths, and the 80% padding test is exact.
  - The floating-point rounding of `1.1`, `1.2` and so on is therefore not reproduced.
  - `targetWordCount` is a natural number rather than an arbitrary JSON number.
- `Math.round(x * 100)` is modelled as exact half-up rounding of the ratio. The rare ties
  where floating point would round differently are not reproduced.
- Strings are sequences of code points. JavaScript's `length` counts UTF-16 units, so
  lengths of text outside the Basic Multilingual Plane differ.
- `Text.ToLowerAscii`: it lower-cases ASCII letters only, not the rest of Unicode.
- `categorizeMainTopic` (`topic-cluster` lines 67 and 244-246) is not modelled: its result
  is never used.
- The template prose is kept as constants. The model proves nothing about what the sentences say.
- The UI components, the layout and the other type files are not modelled: they hold no logic of the core.
- Concurrent writers (two tabs racing on local storage) are not modelled: every operation
  is one atomic step on the store's fields.
