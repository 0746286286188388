/**
 * The fixed material of `generate-article/route.ts`: the twelve-section plan
 * of `designArticleStructure` and the paragraph templates that
 * `generateSectionContent` pushes for each section id. The Japanese prose is
 * carried verbatim as constant strings; only its place in the output matters.
 */
module ArticleTemplates {

  /**
   * One planned section. `targetTenths` is the section's target word count
   * in tenths of a word, so the fractional multipliers stay exact.
   */
  datatype Section = Section(
    id: string,
    title: string,
    level: nat,
    targetTenths: nat,
    targetKeywords: seq<string>,
    subsections: seq<string>)

  datatype ArticleStructure = ArticleStructure(totalWordCount: nat, sections: seq<Section>)

  /** The section ids, in plan order. */
  const SectionIds: seq<string> := ["introduction", "benefits-importance", "getting-started", "step-by-step-guide", "best-practices", "common-mistakes", "tools-resources", "advanced-techniques", "case-studies", "trends-future", "faq", "conclusion"]

  /** The per-section multipliers of `baseWordCountPerSection`, in tenths (1.2 is 12). */
  const Multipliers: seq<nat> := [12, 10, 13, 15, 12, 10, 11, 13, 10, 10, 8, 7]

  /**
   * `designArticleStructure`: twelve level-2 sections whose targets are
   * `floor(target / 12)` times the multipliers, and the requested total.
   */
  function DesignArticleStructure(topic: string, targetWordCount: nat): (s: ArticleStructure)
    ensures s.totalWordCount == targetWordCount
    ensures |s.sections| == 12
    ensures forall i :: 0 <= i < 12 ==>
      && s.sections[i].id == SectionIds[i]
      && s.sections[i].level == 2
      && s.sections[i].targetTenths == (targetWordCount / 12) * Multipliers[i]
  {
    var base := targetWordCount / 12;
    ArticleStructure(targetWordCount, seq(12, i requires 0 <= i < 12 => PlannedSection(i, topic, base)))
  }

  /** The section at position `i` of the plan, for a per-section base of `base` words. */
  function PlannedSection(i: nat, topic: string, base: nat): (s: Section)
    requires i < 12
    ensures s.id == SectionIds[i] && s.level == 2 && s.targetTenths == base * Multipliers[i]
  {
    [IntroductionSection, BenefitsImportanceSection, GettingStartedSection, StepByStepGuideSection,
     BestPracticesSection, CommonMistakesSection, ToolsResourcesSection, AdvancedTechniquesSection,
     CaseStudiesSection, TrendsFutureSection, FaqSection, ConclusionSection][i](topic, base)
  }

  // ----- the plan of each section -----

  function IntroductionSection(topic: string, base: nat): Section {
    Section("introduction", topic + "とは？基本概念から理解する", 2, base * 12,
      [topic + " とは", topic + " 基本", topic + " 概念"],
      [topic + "の定義と重要性",
       topic + "が注目される理由",
       topic + "の基本的な仕組み"])
  }

  function BenefitsImportanceSection(topic: string, base: nat): Section {
    Section("benefits-importance", topic + "のメリットと重要性", 2, base * 10,
      [topic + " メリット", topic + " 効果", topic + " 重要性"],
      [topic + "による具体的なメリット",
       "ビジネスへの影響",
       "個人レベルでの恩恵"])
  }

  function GettingStartedSection(topic: string, base: nat): Section {
    Section("getting-started", topic + "を始める前に知っておくべき基礎知識", 2, base * 13,
      [topic + " 基礎", topic + " 準備", topic + " 始める前"],
      ["必要な知識・スキル",
       "準備すべきツールや環境",
       "初心者が陥りがちな誤解"])
  }

  function StepByStepGuideSection(topic: string, base: nat): Section {
    Section("step-by-step-guide", topic + "の始め方：ステップバイステップガイド", 2, base * 15,
      [topic + " 始め方", topic + " やり方", topic + " 手順"],
      ["ステップ1: 基本設定と準備",
       "ステップ2: 初期設定と基本操作",
       "ステップ3: 実践的な活用方法",
       "ステップ4: 効果測定と改善"])
  }

  function BestPracticesSection(topic: string, base: nat): Section {
    Section("best-practices", topic + "のベストプラクティス", 2, base * 12,
      [topic + " コツ", topic + " ポイント", topic + " 成功"],
      ["効果を最大化するコツ",
       "時間を節約する方法",
       "品質を向上させるテクニック"])
  }

  function CommonMistakesSection(topic: string, base: nat): Section {
    Section("common-mistakes", topic + "でよくある間違いと対処法", 2, base * 10,
      [topic + " 失敗", topic + " 間違い", topic + " 対処法"],
      ["初心者がよく犯す間違い",
       "中級者が陥りがちな罠",
       "問題が発生した時の対処法"])
  }

  function ToolsResourcesSection(topic: string, base: nat): Section {
    Section("tools-resources", topic + "に役立つツールとリソース", 2, base * 11,
      [topic + " ツール", topic + " おすすめ", topic + " リソース"],
      ["必須ツールの紹介",
       "無料で使えるリソース",
       "有料ツールの比較検討"])
  }

  function AdvancedTechniquesSection(topic: string, base: nat): Section {
    Section("advanced-techniques", topic + "の上級テクニック", 2, base * 13,
      [topic + " 上級", topic + " テクニック", topic + " 応用"],
      ["上級者向けの活用方法",
       "応用テクニックの実践",
       "プロが使う秘訣"])
  }

  function CaseStudiesSection(topic: string, base: nat): Section {
    Section("case-studies", topic + "の成功事例と実践例", 2, base * 10,
      [topic + " 事例", topic + " 成功", topic + " 実例"],
      ["企業での成功事例",
       "個人レベルでの活用例",
       "業界別の実践事例"])
  }

  function TrendsFutureSection(topic: string, base: nat): Section {
    Section("trends-future", topic + "の最新トレンドと将来性", 2, base * 10,
      [topic + " トレンド", topic + " 将来性", topic + " 最新"],
      ["2024年の最新動向",
       "将来の発展予測",
       "業界への影響と変化"])
  }

  function FaqSection(topic: string, base: nat): Section {
    Section("faq", topic + "に関するよくある質問", 2, base * 8,
      [topic + " FAQ", topic + " 質問", topic + " 疑問"],
      ["基本的な質問と回答",
       "技術的な質問と解決策",
       "トラブルシューティング"])
  }

  function ConclusionSection(topic: string, base: nat): Section {
    Section("conclusion", "まとめ：" + topic + "を効果的に活用するために", 2, base * 7,
      [topic + " まとめ", topic + " 活用", topic + " 効果的"],
      ["重要ポイントの振り返り",
       "次のアクションステップ",
       "継続的な改善のための提案"])
  }

  /** No two sections share an id, so every `#id` link of the table of contents is unambiguous. */
  lemma SectionIdsDistinct()
    ensures forall i, j :: 0 <= i < j < |SectionIds| ==> SectionIds[i] != SectionIds[j]
  {
  }

  /**
   * The lines `generateSectionContent` pushes for a section: the template of
   * the first plan id equal to its id, or one generic line naming its title
   * for an unknown id.
   */
  function SectionLines(topic: string, section: Section): seq<string> {
    LinesFrom(topic, section, 0)
  }

  /** The `switch` over the ids from position `k` of the plan on. */
  function LinesFrom(topic: string, section: Section, k: nat): seq<string>
    decreases 12 - k
  {
    if k >= 12 then [section.title + "に関する詳細な内容をここに展開します。"]
    else if section.id == SectionIds[k] then TemplateLines(k, topic)
    else LinesFrom(topic, section, k + 1)
  }

  /** The template of the id at position `k` of the plan. */
  function TemplateLines(k: nat, topic: string): seq<string>
    requires k < 12
  {
    [IntroductionLines, BenefitsImportanceLines, GettingStartedLines, StepByStepGuideLines,
     BestPracticesLines, CommonMistakesLines, ToolsResourcesLines, AdvancedTechniquesLines,
     CaseStudiesLines, TrendsFutureLines, FaqLines, ConclusionLines][k](topic)
  }

  /** Positions of the plan whose id differs from the section's are passed over. */
  lemma {:induction false} LinesFromSkips(topic: string, section: Section, k: nat, m: nat)
    requires k <= m <= 12
    requires forall j :: k <= j < m ==> SectionIds[j] != section.id
    ensures LinesFrom(topic, section, k) == LinesFrom(topic, section, m)
    decreases m - k
  {
    if k < m {
      LinesFromSkips(topic, section, k + 1, m);
    }
  }

  /** A section carrying the plan's `k`-th id gets the `k`-th template. */
  lemma KnownIdTemplate(topic: string, section: Section, k: nat)
    requires k < 12 && section.id == SectionIds[k]
    ensures SectionLines(topic, section) == TemplateLines(k, topic)
  {
    SectionIdsDistinct();
    LinesFromSkips(topic, section, 0, k);
  }

  /** A section with an id outside the plan gets the one generic line naming its title. */
  lemma UnknownIdDefault(topic: string, section: Section)
    requires section.id !in SectionIds
    ensures SectionLines(topic, section) == [section.title + "に関する詳細な内容をここに展開します。"]
  {
    LinesFromSkips(topic, section, 0, 12);
  }

  /** Every planned section is written from its own template. */
  lemma PlannedSectionLines(i: nat, topic: string, base: nat)
    requires i < 12
    ensures SectionLines(topic, PlannedSection(i, topic, base)) == TemplateLines(i, topic)
  {
    KnownIdTemplate(topic, PlannedSection(i, topic, base), i);
  }

  // ----- the template of each section id -----

  function IntroductionLines(topic: string): seq<string> {
    [topic + "は、現代のビジネス環境において重要な概念として注目を集めています。",
     "\n### " + topic + "の定義と重要性\n",
     topic + "とは、簡単に説明すると...（ここで具体的な定義を展開）",
     "具体的には以下のような特徴があります：",
     "- 特徴1: 詳細な説明",
     "- 特徴2: 詳細な説明",
     "- 特徴3: 詳細な説明",
     "\n### " + topic + "が注目される理由\n",
     "近年、" + topic + "が注目される背景には複数の要因があります。",
     "第一に、技術の進歩により...",
     "第二に、市場環境の変化により...",
     "\n### " + topic + "の基本的な仕組み\n",
     topic + "の基本的な仕組みを理解するために、以下の要素を考えてみましょう。"]
  }

  function BenefitsImportanceLines(topic: string): seq<string> {
    [topic + "を導入することで得られるメリットは多岐にわたります。",
     "\n### " + topic + "による具体的なメリット\n",
     "**1. 効率性の向上**",
     topic + "を活用することで、従来の作業時間を大幅に短縮できます。",
     "**2. 品質の向上**",
     "一貫性のある高品質な結果を得ることができます。",
     "**3. コスト削減**",
     "長期的な視点で見ると、大幅なコスト削減効果が期待できます。",
     "\n### ビジネスへの影響\n",
     "企業レベルでの" + topic + "導入は、競争優位性の確保に直結します。",
     "\n### 個人レベルでの恩恵\n",
     "個人が" + topic + "を習得することで得られる利益について説明します。"]
  }

  function GettingStartedLines(topic: string): seq<string> {
    [topic + "を始める前に、基礎となる知識を身につけることが重要です。",
     "\n### 必要な知識・スキル\n",
     topic + "を効果的に活用するためには、以下の基礎知識が必要です：",
     "- 基礎知識1: 詳細説明",
     "- 基礎知識2: 詳細説明",
     "- 基礎知識3: 詳細説明",
     "\n### 準備すべきツールや環境\n",
     "実際に" + topic + "を始めるために必要なツールや環境設定について説明します。",
     "\n### 初心者が陥りがちな誤解\n",
     topic + "について初心者がよく持つ誤解を解説し、正しい理解を促進します。"]
  }

  function StepByStepGuideLines(topic: string): seq<string> {
    ["ここでは、" + topic + "を実際に始めるための具体的なステップを詳しく解説します。",
     "\n### ステップ1: 基本設定と準備\n",
     "最初に行うべき基本的な設定について説明します。",
     "1. 初期設定の手順",
     "2. 環境構築の方法",
     "3. 必要なアカウントの作成",
     "\n### ステップ2: 初期設定と基本操作\n",
     "基本的な操作方法を習得しましょう。",
     "\n### ステップ3: 実践的な活用方法\n",
     "実際の業務やプロジェクトでの活用方法を学びます。",
     "\n### ステップ4: 効果測定と改善\n",
     "実施した結果の測定方法と継続的改善のアプローチを説明します。"]
  }

  function BestPracticesLines(topic: string): seq<string> {
    [topic + "を最大限に活用するためのベストプラクティスをご紹介します。",
     "\n### 効果を最大化するコツ\n",
     "以下のコツを実践することで、" + topic + "の効果を最大化できます：",
     "- コツ1: 具体的な実践方法",
     "- コツ2: 具体的な実践方法",
     "- コツ3: 具体的な実践方法",
     "\n### 時間を節約する方法\n",
     "効率的に作業を進めるための時間節約テクニックを紹介します。",
     "\n### 品質を向上させるテクニック\n",
     "一貫して高品質な結果を出すためのテクニックを解説します。"]
  }

  function CommonMistakesLines(topic: string): seq<string> {
    [topic + "を実践する際によくある間違いと、その対処法について説明します。",
     "\n### 初心者がよく犯す間違い\n",
     "**間違い1: 説明**",
     "対処法: 具体的な解決策",
     "**間違い2: 説明**",
     "対処法: 具体的な解決策",
     "\n### 中級者が陥りがちな罠\n",
     "ある程度経験を積んだ人でも陥りがちな問題について解説します。",
     "\n### 問題が発生した時の対処法\n",
     "トラブルが発生した際の系統的な対処アプローチを説明します。"]
  }

  function ToolsResourcesLines(topic: string): seq<string> {
    [topic + "を効果的に実践するために役立つツールやリソースを紹介します。",
     "\n### 必須ツールの紹介\n",
     "**ツール1**",
     "- 特徴: 主な機能と特徴",
     "- 利用方法: 基本的な使い方",
     "- 価格: 料金体系",
     "\n### 無料で使えるリソース\n",
     "コストをかけずに活用できるリソースを紹介します。",
     "\n### 有料ツールの比較検討\n",
     "投資する価値のある有料ツールの比較と選択基準を説明します。"]
  }

  function AdvancedTechniquesLines(topic: string): seq<string> {
    [topic + "をマスターするための上級テクニックを解説します。",
     "\n### 上級者向けの活用方法\n",
     "基本をマスターした方向けの高度な活用方法を紹介します。",
     "\n### 応用テクニックの実践\n",
     "実際のプロジェクトで使える応用テクニックを詳しく説明します。",
     "\n### プロが使う秘訣\n",
     "プロフェッショナルが実践している秘訣やノウハウを公開します。"]
  }

  function CaseStudiesLines(topic: string): seq<string> {
    [topic + "の実際の成功事例を通じて、具体的な活用方法を学びましょう。",
     "\n### 企業での成功事例\n",
     "**事例1: 企業A**",
     "- 課題: 抱えていた問題",
     "- 解決策: " + topic + "を使った解決アプローチ",
     "- 結果: 得られた成果",
     "\n### 個人レベルでの活用例\n",
     "個人が" + topic + "を活用して成果を上げた事例を紹介します。",
     "\n### 業界別の実践事例\n",
     "異なる業界での" + topic + "活用例を比較分析します。"]
  }

  function TrendsFutureLines(topic: string): seq<string> {
    [topic + "の最新トレンドと将来の展望について解説します。",
     "\n### 2024年の最新動向\n",
     "現在注目されている" + topic + "の最新動向を詳しく分析します。",
     "\n### 将来の発展予測\n",
     "専門家の見解と市場分析に基づく将来予測を説明します。",
     "\n### 業界への影響と変化\n",
     topic + "が各業界に与える影響と変化の方向性を考察します。"]
  }

  function FaqLines(topic: string): seq<string> {
    [topic + "に関してよく寄せられる質問とその回答をまとめました。",
     "\n### 基本的な質問と回答\n",
     "**Q1: " + topic + "を始めるのに特別なスキルは必要ですか？**",
     "A1: 基本的な知識があれば始められますが、以下のスキルがあると有利です...",
     "**Q2: どのくらいの期間で成果が出ますか？**",
     "A2: 個人差はありますが、一般的には...",
     "\n### 技術的な質問と解決策\n",
     "より技術的な質問に対する詳細な回答を提供します。",
     "\n### トラブルシューティング\n",
     "よくある問題と、その解決方法をまとめています。"]
  }

  function ConclusionLines(topic: string): seq<string> {
    ["この記事では、" + topic + "について包括的に解説してきました。",
     "\n### 重要ポイントの振り返り\n",
     "記事全体で説明した重要なポイントを振り返ります：",
     "1. " + topic + "の基本概念と重要性",
     "2. 実践的な始め方とステップ",
     "3. ベストプラクティスと避けるべき間違い",
     "4. 上級テクニックと応用方法",
     "\n### 次のアクションステップ\n",
     "この記事を読み終えた後に取るべき具体的なアクションを提案します。",
     "\n### 継続的な改善のための提案\n",
     topic + "のスキルを継続的に向上させるためのアドバイスを提供します。"]
  }
}
