/**
 * The project records of `types/project.ts` shared by the two project
 * stores: a project, the saved results of the four tools, and the project
 * together with its results.
 */
module ProjectTypes {
  import opened Wrappers

  datatype Project = Project(
    id: string,
    name: string,
    url: string,
    createdAt: string,
    updatedAt: string)

  /** A saved site analysis or list of SEO suggestions. */
  datatype GeneratedResult = GeneratedResult(result: string, generatedAt: string)

  /** A saved topic cluster or article, with the topic it was generated for. */
  datatype TopicResult = TopicResult(result: string, generatedAt: string, topic: string)

  /** The optional results of the four tools. */
  datatype ProjectData = ProjectData(
    siteAnalysis: Option<GeneratedResult>,
    seoSuggestions: Option<GeneratedResult>,
    topicCluster: Option<TopicResult>,
    articleGeneration: Option<TopicResult>)

  /** `{}`: no result saved yet. */
  const EmptyData: ProjectData := ProjectData(None, None, None, None)

  /** A project's fields together with its saved results. */
  datatype ProjectWithData = ProjectWithData(
    id: string,
    name: string,
    url: string,
    createdAt: string,
    updatedAt: string,
    data: ProjectData)

  /** `{ ...project, data }`. */
  function WithData(p: Project, data: ProjectData): (r: ProjectWithData)
    ensures r.id == p.id && r.name == p.name && r.url == p.url
    ensures r.createdAt == p.createdAt && r.updatedAt == p.updatedAt && r.data == data
  {
    ProjectWithData(p.id, p.name, p.url, p.createdAt, p.updatedAt, data)
  }

  /** Which of the four results an update writes. */
  datatype ResultType = SiteAnalysisKind | SeoSuggestionsKind | TopicClusterKind | ArticleGenerationKind
}
