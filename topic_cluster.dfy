/**
 * The topic-cluster generator of `topic-cluster/route.ts`: fixed templates
 * for a pillar page, eight cluster articles, keyword lists and a content
 * strategy around one main topic, and the integer SEO score of the result.
 */
module TopicCluster {
  import opened Wrappers
  import opened Text

  datatype PillarContent = PillarContent(
    title: string,
    description: string,
    targetKeywords: seq<string>,
    estimatedWordCount: nat,
    contentOutline: seq<string>)

  datatype ClusterTopic = ClusterTopic(
    title: string,
    keywords: seq<string>,
    contentType: string,
    estimatedWordCount: nat,
    difficulty: string,
    searchVolume: string)

  datatype Keywords = Keywords(primary: seq<string>, secondary: seq<string>, longtail: seq<string>, related: seq<string>)

  datatype ContentStrategy = ContentStrategy(
    totalArticles: nat,
    estimatedTimeframe: string,
    pillarSchedule: string,
    clusterSchedule: string,
    interlinkingStrategy: seq<string>,
    distributionChannels: seq<string>,
    measurementKPIs: seq<string>)

  datatype GeneratedTopicCluster = GeneratedTopicCluster(
    mainTopic: string,
    pillarContent: PillarContent,
    clusterTopics: seq<ClusterTopic>,
    keywords: Keywords,
    contentStrategy: ContentStrategy,
    seoScore: nat,
    createdAt: string)

  const Beginner: string := "初級"
  const Intermediate: string := "中級"
  const Advanced: string := "上級"

  // ----- `${mainTopic} ${term}` lists -----

  /** `terms.map(term => `${topic} ${term}`)`. */
  function Prefixed(topic: string, terms: seq<string>): (r: seq<string>)
    ensures |r| == |terms|
    ensures forall i :: 0 <= i < |r| ==> StartsWith(r[i], topic + " ")
  {
    var r := seq(|terms|, i requires 0 <= i < |terms| => topic + " " + terms[i]);
    assert forall i :: 0 <= i < |r| ==> StartsWith(r[i], topic + " ") by {
      forall i | 0 <= i < |r| ensures StartsWith(r[i], topic + " ") {
        PrefixOfConcat(topic + " ", terms[i]);
      }
    }
    r
  }

  /** Each entry gives its term back once the topic and the blank are cut off. */
  lemma PrefixedRoundTrip(topic: string, terms: seq<string>, i: nat)
    requires i < |terms|
    ensures Prefixed(topic, terms)[i][|topic| + 1..] == terms[i]
  {
    assert Prefixed(topic, terms)[i] == (topic + " ") + terms[i];
  }

  /** Every string that starts with `topic + " "` starts with `topic`. */
  lemma StartsWithLonger(s: string, topic: string, more: string)
    requires StartsWith(s, topic + more)
    ensures StartsWith(s, topic)
  {
    assert s[..|topic|] == (topic + more)[..|topic|];
  }

  // ----- pillar page -----

  /** `generatePillarContent`. */
  function GeneratePillarContent(topic: string): (p: PillarContent)
    ensures StartsWith(p.title, topic)
    ensures |p.targetKeywords| == 4 && p.targetKeywords[0] == topic
    ensures forall i :: 0 <= i < |p.targetKeywords| ==> StartsWith(p.targetKeywords[i], topic)
    ensures p.estimatedWordCount == 15000 && p.estimatedWordCount > 10000
    ensures |p.contentOutline| == 8
    ensures forall i :: 0 <= i < 7 ==> StartsWith(p.contentOutline[i], topic)
  {
    var keywords := [topic] + Prefixed(topic, ["とは", "方法", "完全ガイド"]);
    var outline := [
      topic + "とは？基本概念の解説",
      topic + "の重要性と必要性",
      topic + "を始める前に知っておくべきこと",
      topic + "の具体的な実践方法",
      topic + "でよくある間違いと対処法",
      topic + "の最新トレンドと将来性",
      topic + "に関するよくある質問",
      "まとめと次のステップ"];
    assert forall i :: 0 <= i < 4 ==> StartsWith(keywords[i], topic) by {
      assert keywords[0] == topic + [];
      PrefixOfConcat(topic, []);
      forall i | 1 <= i < 4 ensures StartsWith(keywords[i], topic) {
        StartsWithLonger(keywords[i], topic, " ");
      }
    }
    assert forall i :: 0 <= i < 7 ==> StartsWith(outline[i], topic) by {
      PrefixOfConcat(topic, "とは？基本概念の解説");
      PrefixOfConcat(topic, "の重要性と必要性");
      PrefixOfConcat(topic, "を始める前に知っておくべきこと");
      PrefixOfConcat(topic, "の具体的な実践方法");
      PrefixOfConcat(topic, "でよくある間違いと対処法");
      PrefixOfConcat(topic, "の最新トレンドと将来性");
      PrefixOfConcat(topic, "に関するよくある質問");
    }
    PrefixOfConcat(topic, "の完全ガイド");
    PillarContent(
      topic + "の完全ガイド",
      topic + "に関する包括的な情報をまとめた詳細ガイド。初心者から上級者まで対応した完全版コンテンツです。",
      keywords,
      15000,
      outline)
  }

  // ----- cluster articles -----

  /** One cluster record: title `topic + suffix`, keywords `topic + " " + term`. */
  function Article(topic: string, suffix: string, terms: seq<string>, contentType: string,
                   words: nat, difficulty: string, volume: string): (t: ClusterTopic)
    ensures StartsWith(t.title, topic)
    ensures |t.keywords| == |terms|
    ensures forall i :: 0 <= i < |t.keywords| ==> StartsWith(t.keywords[i], topic + " ")
    ensures t.contentType == contentType && t.estimatedWordCount == words && t.difficulty == difficulty
  {
    PrefixOfConcat(topic, suffix);
    ClusterTopic(topic + suffix, Prefixed(topic, terms), contentType, words, difficulty, volume)
  }

  /** `clusterTopics.reduce((sum, topic) => sum + topic.estimatedWordCount, 0)`. */
  function SumWordCounts(topics: seq<ClusterTopic>): nat {
    if topics == [] then 0 else SumWordCounts(topics[..|topics| - 1]) + topics[|topics| - 1].estimatedWordCount
  }

  /** `new Set(clusterTopics.map(topic => topic.contentType))`. */
  function ContentTypes(topics: seq<ClusterTopic>): set<string> {
    if topics == [] then {} else ContentTypes(topics[..|topics| - 1]) + {topics[|topics| - 1].contentType}
  }

  /** The set holds exactly the content types that occur in the list. */
  lemma {:induction false} ContentTypesMembers(topics: seq<ClusterTopic>, c: string)
    ensures c in ContentTypes(topics) <==> exists i :: 0 <= i < |topics| && topics[i].contentType == c
  {
    if topics != [] {
      var init := topics[..|topics| - 1];
      ContentTypesMembers(init, c);
      assert forall i :: 0 <= i < |init| ==> init[i] == topics[i];
    }
  }

  /** There are never more content types than topics. */
  lemma {:induction false} ContentTypesBound(topics: seq<ClusterTopic>)
    ensures |ContentTypes(topics)| <= |topics|
  {
    if topics != [] {
      ContentTypesBound(topics[..|topics| - 1]);
    }
  }

  /** `difficulties.includes(level)`. */
  predicate HasLevel(topics: seq<ClusterTopic>, level: string) {
    exists i :: 0 <= i < |topics| && topics[i].difficulty == level
  }

  predicate HasAllLevels(topics: seq<ClusterTopic>) {
    HasLevel(topics, Beginner) && HasLevel(topics, Intermediate) && HasLevel(topics, Advanced)
  }

  /** Every title starts with the topic and every keyword with the topic and a blank. */
  predicate AboutTopic(topics: seq<ClusterTopic>, topic: string) {
    forall i :: 0 <= i < |topics| ==>
      && StartsWith(topics[i].title, topic)
      && forall j :: 0 <= j < |topics[i].keywords| ==> StartsWith(topics[i].keywords[j], topic + " ")
  }

  /** Pushing a record about the topic keeps the list about the topic. */
  lemma AboutTopicSnoc(topics: seq<ClusterTopic>, t: ClusterTopic, topic: string)
    requires AboutTopic(topics, topic)
    requires StartsWith(t.title, topic)
    requires forall j :: 0 <= j < |t.keywords| ==> StartsWith(t.keywords[j], topic + " ")
    ensures AboutTopic(topics + [t], topic)
  {
    var r := topics + [t];
    assert forall i :: 0 <= i < |topics| ==> r[i] == topics[i];
  }

  lemma SumSnoc(topics: seq<ClusterTopic>, t: ClusterTopic)
    ensures SumWordCounts(topics + [t]) == SumWordCounts(topics) + t.estimatedWordCount
  {
    assert (topics + [t])[..|topics|] == topics;
  }

  lemma ContentTypesSnoc(topics: seq<ClusterTopic>, t: ClusterTopic)
    ensures ContentTypes(topics + [t]) == ContentTypes(topics) + {t.contentType}
  {
    assert (topics + [t])[..|topics|] == topics;
  }

  /**
   * The eight cluster articles in the order `generateClusterTopics` pushes
   * them (basics, pros and cons, getting started, pitfalls, advanced
   * techniques, trends, tool comparison, FAQ), each with its title suffix,
   * keyword terms, content type, word count, difficulty and search volume.
   */
  function ClusterPlan(topic: string): seq<ClusterTopic> {
    [Article(topic, "の基本概念", ["基本", "初心者", "入門"], "解説記事", 3000, Beginner, "Medium"),
     Article(topic, "のメリット・デメリット", ["メリット", "デメリット", "利点"], "比較記事", 2500, Beginner, "Medium"),
     Article(topic, "の始め方ステップバイステップ", ["始め方", "やり方", "手順"], "ハウツー記事", 4000, Intermediate, "High"),
     Article(topic, "でよくある失敗と対策", ["失敗", "間違い", "注意点"], "対策記事", 3500, Intermediate, "Medium"),
     Article(topic, "の上級テクニック", ["上級", "テクニック", "応用"], "上級ガイド", 5000, Advanced, "Low"),
     Article(topic, "の最新トレンド2024", ["トレンド", "2024", "最新"], "トレンド記事", 2800, Intermediate, "Medium"),
     Article(topic, "ツール・サービス比較", ["比較", "ツール", "おすすめ"], "比較記事", 6000, Intermediate, "High"),
     Article(topic, "でよくある質問30選", ["FAQ", "質問", "疑問"], "FAQ記事", 4500, Beginner, "Medium")]
  }

  /** Every planned title starts with the topic, every keyword with the topic and a blank. */
  lemma ClusterPlanAbout(topic: string)
    ensures AboutTopic(ClusterPlan(topic), topic)
  {
    var p := ClusterPlan(topic);
    assert forall i :: 0 <= i < |p| ==>
      && StartsWith(p[i].title, topic)
      && forall j :: 0 <= j < |p[i].keywords| ==> StartsWith(p[i].keywords[j], topic + " ");
  }

  /** The planned word counts add up to 31300. */
  lemma ClusterPlanWords(topic: string)
    ensures SumWordCounts(ClusterPlan(topic)) == 31300
  {
    var p := ClusterPlan(topic);
    SumSnoc(p[..7], p[7]);
    SumSnoc(p[..6], p[6]);
    SumSnoc(p[..5], p[5]);
    SumSnoc(p[..4], p[4]);
    SumSnoc(p[..3], p[3]);
    SumSnoc(p[..2], p[2]);
    SumSnoc(p[..1], p[1]);
    SumSnoc([], p[0]);
    assert p[..1] == [] + [p[0]];
    assert p[..2] == p[..1] + [p[1]];
    assert p[..3] == p[..2] + [p[2]];
    assert p[..4] == p[..3] + [p[3]];
    assert p[..5] == p[..4] + [p[4]];
    assert p[..6] == p[..5] + [p[5]];
    assert p[..7] == p[..6] + [p[6]];
    assert p == p[..7] + [p[7]];
  }

  /** The plan uses seven distinct content types and all three levels. */
  lemma ClusterPlanTypes(topic: string)
    ensures |ContentTypes(ClusterPlan(topic))| == 7
    ensures HasAllLevels(ClusterPlan(topic))
  {
    var p := ClusterPlan(topic);
    ContentTypesSnoc(p[..7], p[7]);
    ContentTypesSnoc(p[..6], p[6]);
    ContentTypesSnoc(p[..5], p[5]);
    ContentTypesSnoc(p[..4], p[4]);
    ContentTypesSnoc(p[..3], p[3]);
    ContentTypesSnoc(p[..2], p[2]);
    ContentTypesSnoc(p[..1], p[1]);
    ContentTypesSnoc([], p[0]);
    assert ContentTypes([]) == {};
    assert p[..1] == [] + [p[0]];
    assert p[..2] == p[..1] + [p[1]];
    assert p[..3] == p[..2] + [p[2]];
    assert p[..4] == p[..3] + [p[3]];
    assert p[..5] == p[..4] + [p[4]];
    assert p[..6] == p[..5] + [p[5]];
    assert p[..7] == p[..6] + [p[6]];
    assert p == p[..7] + [p[7]];
    assert ContentTypes(p) == ClusterContentTypes;
    ClusterContentTypesCount();
    assert p[0].difficulty == Beginner && p[2].difficulty == Intermediate && p[4].difficulty == Advanced;
  }

  /**
   * `generateClusterTopics`: pushes the eight articles of `ClusterPlan` one
   * by one, so the list is about the topic, its word counts add up to
   * 31300, it holds seven distinct content types and all three levels.
   */
  method GenerateClusterTopics(topic: string) returns (topics: seq<ClusterTopic>)
    ensures topics == ClusterPlan(topic)
    ensures |topics| == 8
    ensures AboutTopic(topics, topic)
    ensures SumWordCounts(topics) == 31300
    ensures |ContentTypes(topics)| == 7
    ensures HasAllLevels(topics)
  {
    topics := [];
    topics := topics + [Article(topic, "の基本概念", ["基本", "初心者", "入門"], "解説記事", 3000, Beginner, "Medium")];
    topics := topics + [Article(topic, "のメリット・デメリット", ["メリット", "デメリット", "利点"], "比較記事", 2500, Beginner, "Medium")];
    topics := topics + [Article(topic, "の始め方ステップバイステップ", ["始め方", "やり方", "手順"], "ハウツー記事", 4000, Intermediate, "High")];
    topics := topics + [Article(topic, "でよくある失敗と対策", ["失敗", "間違い", "注意点"], "対策記事", 3500, Intermediate, "Medium")];
    topics := topics + [Article(topic, "の上級テクニック", ["上級", "テクニック", "応用"], "上級ガイド", 5000, Advanced, "Low")];
    topics := topics + [Article(topic, "の最新トレンド2024", ["トレンド", "2024", "最新"], "トレンド記事", 2800, Intermediate, "Medium")];
    topics := topics + [Article(topic, "ツール・サービス比較", ["比較", "ツール", "おすすめ"], "比較記事", 6000, Intermediate, "High")];
    topics := topics + [Article(topic, "でよくある質問30選", ["FAQ", "質問", "疑問"], "FAQ記事", 4500, Beginner, "Medium")];
    assert topics == ClusterPlan(topic);
    ClusterPlanAbout(topic);
    ClusterPlanWords(topic);
    ClusterPlanTypes(topic);
  }

  const ClusterContentTypes: set<string> := {"解説記事", "比較記事", "ハウツー記事", "対策記事", "上級ガイド", "トレンド記事", "FAQ記事"}

  lemma ClusterContentTypesCount()
    ensures |ClusterContentTypes| == 7
  {
    var a, b, c, d := "解説記事", "比較記事", "ハウツー記事", "対策記事";
    var e, f, g := "上級ガイド", "トレンド記事", "FAQ記事";
    assert a[0] != b[0] && a[0] != c[0] && a[0] != d[0] && a[0] != e[0] && a[0] != f[0] && a[0] != g[0];
    assert b[0] != c[0] && b[0] != d[0] && b[0] != e[0] && b[0] != f[0] && b[0] != g[0];
    assert c[0] != d[0] && c[0] != e[0] && c[0] != f[0] && c[0] != g[0];
    assert d[0] != e[0] && d[0] != f[0] && d[0] != g[0];
    assert e[0] != f[0] && e[0] != g[0] && f[0] != g[0];
    assert |{a}| == 1;
    assert |{a, b}| == 2;
    assert |{a, b, c}| == 3;
    assert |{a, b, c, d}| == 4;
    assert |{a, b, c, d, e}| == 5;
    assert |{a, b, c, d, e, f}| == 6;
  }

  // ----- keywords -----

  const RelatedTerms: seq<string> := [
    "効果", "方法", "手順", "コツ", "ポイント", "テクニック",
    "初心者", "上級者", "始め方", "やり方", "使い方",
    "メリット", "デメリット", "比較", "おすすめ",
    "最新", "トレンド", "2024", "将来性"]

  /** `generateRelatedKeywords`: the topic followed by each of the 19 common terms, in term order. */
  function GenerateRelatedKeywords(topic: string): (r: seq<string>)
    ensures |r| == 19
    ensures forall i :: 0 <= i < |r| ==> StartsWith(r[i], topic + " ")
  {
    Prefixed(topic, RelatedTerms)
  }

  /** `generateKeywords`. */
  function GenerateKeywords(topic: string): (k: Keywords)
    ensures |k.primary| == 4 && k.primary[0] == topic
    ensures |k.secondary| == 6 && |k.longtail| == 6 && |k.related| == 19
    ensures forall i :: 1 <= i < |k.primary| ==> StartsWith(k.primary[i], topic + " ")
    ensures forall i :: 0 <= i < |k.secondary| ==> StartsWith(k.secondary[i], topic + " ")
    ensures forall i :: 0 <= i < |k.longtail| ==> StartsWith(k.longtail[i], topic + " ")
  {
    var rest := Prefixed(topic, ["とは", "方法", "始め方"]);
    var primary := [topic] + rest;
    assert forall i :: 1 <= i < |primary| ==> primary[i] == rest[i - 1];
    Keywords(
      primary,
      Prefixed(topic, ["初心者", "基本", "手順", "やり方", "コツ", "ポイント"]),
      Prefixed(topic, ["初心者 始め方", "効果的な方法", "失敗しない コツ", "おすすめ ツール", "メリット デメリット", "2024 最新 トレンド"]),
      GenerateRelatedKeywords(topic))
  }

  // ----- strategy -----

  /** `generateContentStrategy`: one article per cluster topic plus the pillar page. */
  function GenerateContentStrategy(topic: string, clusterTopics: seq<ClusterTopic>): (s: ContentStrategy)
    ensures s.totalArticles == |clusterTopics| + 1
    ensures |s.interlinkingStrategy| == 4 && |s.distributionChannels| == 4 && |s.measurementKPIs| == 4
  {
    ContentStrategy(
      |clusterTopics| + 1,
      "3-6ヶ月",
      "1ヶ月目",
      "2-6ヶ月目（週1-2本ペース）",
      ["ピラーコンテンツから各クラスター記事への内部リンク設置",
       "クラスター記事からピラーコンテンツへの誘導リンク",
       "関連性の高いクラスター記事同士の相互リンク",
       "トピッククラスター専用のランディングページ作成"],
      ["オーガニック検索", "ソーシャルメディア", "メルマガ配信", "他サイトでの言及・被リンク獲得"],
      ["対象キーワードでの検索順位向上",
       "クラスター全体でのオーガニックトラフィック増加",
       "滞在時間とページ/セッション数の向上",
       "コンバージョン率の改善"])
  }

  // ----- score -----

  /**
   * `avgWordCount > 3000` with `avgWordCount = sum / length` in floating
   * point: for a non-empty list it is `sum > 3000 * length`; for the empty
   * list the average is `NaN`, which compares false, and so does
   * `0 > 3000 * 0`.
   */
  predicate AverageAbove3000(topics: seq<ClusterTopic>) {
    SumWordCounts(topics) > 3000 * |topics|
  }

  lemma AverageTest(topics: seq<ClusterTopic>)
    ensures |topics| > 0 ==>
      ((SumWordCounts(topics) as real) / (|topics| as real) > 3000.0 <==> AverageAbove3000(topics))
    ensures |topics| == 0 ==> !AverageAbove3000(topics)
  {
    if |topics| > 0 {
      var s := SumWordCounts(topics);
      var n := |topics|;
      DivideAbove(s as real, n as real, 3000.0);
      assert (3000 * n) as real == 3000.0 * (n as real);
    }
  }

  /** For a positive divisor, `a / b > c` is `a > c * b`. */
  lemma DivideAbove(a: real, b: real, c: real)
    requires b > 0.0
    ensures a / b > c <==> a > c * b
  {
    var q := a / b;
    assert q * b == a;
    assert (q - c) * b == a - c * b;
    if q > c {
      assert (q - c) * b > 0.0;
    } else {
      assert (c - q) * b >= 0.0;
    }
  }

  /**
   * `calculateSEOScore`: six criteria add 20/10, 15/10, 20/15, 15/10,
   * 15/10 and 15/10 points, capped at 100.
   */
  method CalculateSeoScore(pillar: PillarContent, topics: seq<ClusterTopic>) returns (score: nat)
    ensures 65 <= score <= 100
    ensures score == 100 <==>
      && pillar.estimatedWordCount > 10000 && |pillar.targetKeywords| >= 4
      && AverageAbove3000(topics) && |ContentTypes(topics)| >= 4
      && HasAllLevels(topics) && |topics| >= 8
    ensures score == 100 - (if pillar.estimatedWordCount > 10000 then 0 else 10)
                         - (if |pillar.targetKeywords| >= 4 then 0 else 5)
                         - (if AverageAbove3000(topics) then 0 else 5)
                         - (if |ContentTypes(topics)| >= 4 then 0 else 5)
                         - (if HasAllLevels(topics) then 0 else 5)
                         - (if |topics| >= 8 then 0 else 5)
    ensures score == 65 <==>
      && pillar.estimatedWordCount <= 10000 && |pillar.targetKeywords| < 4
      && !AverageAbove3000(topics) && |ContentTypes(topics)| < 4
      && !HasAllLevels(topics) && |topics| < 8
  {
    score := 0;
    score := score + (if pillar.estimatedWordCount > 10000 then 20 else 10);
    score := score + (if |pillar.targetKeywords| >= 4 then 15 else 10);
    score := score + (if AverageAbove3000(topics) then 20 else 15);
    score := score + (if |ContentTypes(topics)| >= 4 then 15 else 10);
    score := score + (if HasAllLevels(topics) then 15 else 10);
    score := score + (if |topics| >= 8 then 15 else 10);
    score := if score < 100 then score else 100;
  }

  /** `generateTopicCluster`: the generated cluster always scores the full 100. */
  method GenerateTopicCluster(topic: string, now: string) returns (cluster: GeneratedTopicCluster)
    ensures cluster.mainTopic == topic && cluster.createdAt == now
    ensures cluster.pillarContent == GeneratePillarContent(topic)
    ensures cluster.clusterTopics == ClusterPlan(topic) && AboutTopic(cluster.clusterTopics, topic)
    ensures cluster.keywords == GenerateKeywords(topic)
    ensures cluster.contentStrategy == GenerateContentStrategy(topic, cluster.clusterTopics)
    ensures |cluster.clusterTopics| == 8 && cluster.contentStrategy.totalArticles == 9
    ensures |cluster.pillarContent.targetKeywords| == 4 && cluster.pillarContent.targetKeywords[0] == topic
    ensures cluster.seoScore == 100
  {
    var pillar := GeneratePillarContent(topic);
    var topics := GenerateClusterTopics(topic);
    var keywords := GenerateKeywords(topic);
    var strategy := GenerateContentStrategy(topic, topics);
    var score := CalculateSeoScore(pillar, topics);
    cluster := GeneratedTopicCluster(topic, pillar, topics, keywords, strategy, score, now);
  }

  /** The route handler: a falsy topic (absent or empty) is a 400; anything else builds the cluster. */
  method HandleTopicCluster(topic: Option<string>, now: string) returns (response: Response<GeneratedTopicCluster>)
    ensures response.Error? <==> topic.None? || topic.value == ""
    ensures response.Error? ==> response.status == 400 && response.message == "トピックが必要です"
    ensures response.Ok? ==> response.body.mainTopic == topic.value && response.body.seoScore == 100
    ensures response.Ok? ==>
      && response.body.pillarContent == GeneratePillarContent(topic.value)
      && response.body.clusterTopics == ClusterPlan(topic.value)
      && response.body.keywords == GenerateKeywords(topic.value)
      && response.body.contentStrategy == GenerateContentStrategy(topic.value, ClusterPlan(topic.value))
      && response.body.createdAt == now
  {
    if topic.None? || topic.value == "" {
      return Error(400, "トピックが必要です");
    }
    var cluster := GenerateTopicCluster(topic.value, now);
    response := Ok(cluster);
  }
}
