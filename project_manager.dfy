/**
 * `ProjectManager`: every project with its results kept as one JSON array
 * under the local-storage key `article-assistant-projects`. The key's
 * content is the field `stored`; JSON encoding and decoding are the
 * identity on the list.
 */
module Manager {
  import opened Wrappers
  import opened ProjectTypes
  import opened Base64

  const StorageKey: string := "article-assistant-projects"

  /** What `localStorage.getItem` finds under the key. */
  datatype Slot =
    | Missing                              // no item, or an empty string
    | Unparseable                          // text `JSON.parse` rejects
    | Stored(projects: seq<ProjectWithData>)

  /** `findIndex(p => p.id === id)`: the first position holding the id, or -1. */
  function FindIndex(ps: seq<ProjectWithData>, id: string): (k: int)
    ensures -1 <= k < |ps|
    ensures k >= 0 ==> ps[k].id == id && forall j :: 0 <= j < k ==> ps[j].id != id
    ensures k == -1 <==> forall j :: 0 <= j < |ps| ==> ps[j].id != id
  {
    if ps == [] then -1
    else if ps[0].id == id then 0
    else
      var k := FindIndex(ps[1..], id);
      if k == -1 then -1 else k + 1
  }

  /** `find(p => p.id === id)`: the first project holding the id. */
  function Find(ps: seq<ProjectWithData>, id: string): (r: Option<ProjectWithData>)
    ensures r.None? <==> forall j :: 0 <= j < |ps| ==> ps[j].id != id
    ensures r.Some? ==> r.value.id == id && r.value == ps[FindIndex(ps, id)]
  {
    var k := FindIndex(ps, id);
    if k >= 0 then Some(ps[k]) else None
  }

  /**
   * What `saveProject` stores: the first project with the same id replaced,
   * or the project appended when the id is new.
   */
  function Upsert(ps: seq<ProjectWithData>, p: ProjectWithData): (r: seq<ProjectWithData>)
    ensures FindIndex(ps, p.id) >= 0 ==> |r| == |ps|
    ensures FindIndex(ps, p.id) == -1 ==> |r| == |ps| + 1 && r[|ps|] == p
    ensures forall j :: 0 <= j < |ps| && j != FindIndex(ps, p.id) ==> r[j] == ps[j]
    ensures Find(r, p.id) == Some(p)
  {
    var k := FindIndex(ps, p.id);
    if k >= 0 then
      var r := ps[k := p];
      assert r[k].id == p.id;
      assert forall j :: 0 <= j < k ==> r[j] == ps[j];
      r
    else
      var r := ps + [p];
      assert r[|ps|].id == p.id;
      assert forall j :: 0 <= j < |ps| ==> r[j] == ps[j];
      r
  }

  /** Saving twice is saving once. */
  lemma UpsertIdempotent(ps: seq<ProjectWithData>, p: ProjectWithData)
    ensures Upsert(Upsert(ps, p), p) == Upsert(ps, p)
  {
    var once := Upsert(ps, p);
    assert FindIndex(once, p.id) >= 0;
    assert once[FindIndex(once, p.id)] == p;
    assert once[FindIndex(once, p.id) := p] == once;
  }

  /** Saving a project leaves what `getProject` finds for any other id unchanged. */
  lemma UpsertKeepsOthers(ps: seq<ProjectWithData>, p: ProjectWithData, id: string)
    requires id != p.id
    ensures Find(Upsert(ps, p), id) == Find(ps, id)
  {
    var r := Upsert(ps, p);
    var k := FindIndex(ps, id);
    var m := FindIndex(r, id);
    if k >= 0 {
      assert r[k] == ps[k];
      assert m == k by {
        forall j | 0 <= j < k ensures r[j].id != id {
          assert r[j] == ps[j] || r[j] == p;
        }
      }
    } else {
      assert forall j :: 0 <= j < |r| ==> r[j].id != id by {
        forall j | 0 <= j < |r| ensures r[j].id != id {
          if j < |ps| {
            assert r[j] == ps[j] || r[j] == p;
          }
        }
      }
    }
  }

  /** `filter(p => p.id !== id)`. */
  function RemoveId(ps: seq<ProjectWithData>, id: string): (r: seq<ProjectWithData>)
    ensures |r| <= |ps|
    ensures forall j :: 0 <= j < |r| ==> r[j].id != id
    ensures forall x :: x in r <==> x in ps && x.id != id
    ensures |r| == |ps| <==> forall j :: 0 <= j < |ps| ==> ps[j].id != id
  {
    if ps == [] then []
    else if ps[0].id == id then
      RemoveId(ps[1..], id)
    else
      var rest := RemoveId(ps[1..], id);
      assert forall x :: x in ps <==> x == ps[0] || x in ps[1..];
      [ps[0]] + rest
  }

  /** Filtering keeps the order of what remains: it distributes over concatenation. */
  lemma {:induction false} RemoveIdAppend(a: seq<ProjectWithData>, b: seq<ProjectWithData>, id: string)
    ensures RemoveId(a + b, id) == RemoveId(a, id) + RemoveId(b, id)
  {
    if a == [] {
      assert a + b == b;
    } else {
      var ab := a + b;
      assert ab[0] == a[0] && ab[1..] == a[1..] + b;
      RemoveIdAppend(a[1..], b, id);
      if a[0].id != id {
        assert RemoveId(ab, id) == [a[0]] + (RemoveId(a[1..], id) + RemoveId(b, id));
        assert RemoveId(a, id) == [a[0]] + RemoveId(a[1..], id);
      }
    }
  }

  /** `generateProjectId`. */
  function GenerateProjectId(url: string): (id: string)
    requires Latin1(url)
    ensures |id| == (if |KeepAlnum(Encode(url))| < 16 then |KeepAlnum(Encode(url))| else 16)
    ensures forall i :: 0 <= i < |id| ==> IsAlnum(id[i])
    ensures StartsWithAll(KeepAlnum(Encode(url)), id)
  {
    ProjectId(url)
  }

  /** `createProject`: a project with no results, created and updated at `now`. */
  function CreateProject(url: string, name: Option<string>, now: string): (p: ProjectWithData)
    requires Latin1(url)
    ensures p.id == GenerateProjectId(url) && p.url == url
    ensures p.name == (if name.None? || name.value == [] then "Project " + p.id else name.value)
    ensures p.createdAt == now && p.updatedAt == now
    ensures p.data == EmptyData
  {
    var id := GenerateProjectId(url);
    ProjectWithData(id, if name.Some? && name.value != [] then name.value else "Project " + id,
                    url, now, now, EmptyData)
  }

  /** `additionalData?.topic || ''`. */
  function TopicOr(topic: Option<string>): (t: string)
    ensures topic.Some? && topic.value != [] ==> t == topic.value
    ensures topic.None? || topic.value == [] ==> t == []
  {
    if topic.Some? then topic.value else []
  }

  /** The results after `updateProjectData` writes one kind at `now`. */
  function WithResult(data: ProjectData, kind: ResultType, result: string, topic: Option<string>,
                      now: string): (d: ProjectData)
    ensures d.siteAnalysis == if kind == SiteAnalysisKind then Some(GeneratedResult(result, now)) else data.siteAnalysis
    ensures d.seoSuggestions == if kind == SeoSuggestionsKind then Some(GeneratedResult(result, now)) else data.seoSuggestions
    ensures d.topicCluster == if kind == TopicClusterKind then Some(TopicResult(result, now, TopicOr(topic))) else data.topicCluster
    ensures d.articleGeneration == if kind == ArticleGenerationKind then Some(TopicResult(result, now, TopicOr(topic))) else data.articleGeneration
  {
    match kind
    case SiteAnalysisKind => data.(siteAnalysis := Some(GeneratedResult(result, now)))
    case SeoSuggestionsKind => data.(seoSuggestions := Some(GeneratedResult(result, now)))
    case TopicClusterKind => data.(topicCluster := Some(TopicResult(result, now, TopicOr(topic))))
    case ArticleGenerationKind => data.(articleGeneration := Some(TopicResult(result, now, TopicOr(topic))))
  }

  class ProjectManager {
    var stored: Slot

    constructor (initial: Slot)
      ensures stored == initial
    {
      stored := initial;
    }

    /** The list `getAllProjects` reads. */
    function AllProjects(): seq<ProjectWithData>
      reads this
    {
      if stored.Stored? then stored.projects else []
    }

    /** `getAllProjects`: the stored list, or none when the key is missing or unparseable. */
    method GetAllProjects() returns (ps: seq<ProjectWithData>)
      ensures stored.Stored? ==> ps == stored.projects
      ensures !stored.Stored? ==> ps == []
    {
      match stored
      case Missing => ps := [];
      case Unparseable => ps := [];
      case Stored(list) => ps := list;
    }

    /** `getProject`: the first stored project holding the id. */
    method GetProject(id: string) returns (r: Option<ProjectWithData>)
      ensures r.None? <==> forall j :: 0 <= j < |AllProjects()| ==> AllProjects()[j].id != id
      ensures r.Some? ==> r.value.id == id && r.value == AllProjects()[FindIndex(AllProjects(), id)]
    {
      var ps := GetAllProjects();
      assert ps == AllProjects();
      r := Find(ps, id);
    }

    /** `getProjectByUrl`: the project whose id the URL derives. */
    method GetProjectByUrl(url: string) returns (r: Option<ProjectWithData>)
      requires Latin1(url)
      ensures r == Find(AllProjects(), GenerateProjectId(url))
    {
      var id := GenerateProjectId(url);
      r := GetProject(id);
    }

    /** `saveProject`: replace the first project holding the id, or append. */
    method SaveProject(project: ProjectWithData)
      modifies this
      ensures stored == Stored(Upsert(old(AllProjects()), project))
      ensures Find(AllProjects(), project.id) == Some(project)
    {
      var projects := GetAllProjects();
      var existingIndex := FindIndex(projects, project.id);
      if existingIndex >= 0 {
        projects := projects[existingIndex := project];
      } else {
        projects := projects + [project];
      }
      stored := Stored(projects);
    }

    /**
     * `updateProjectData`: stamps the project found for the id and the
     * chosen result with `now` and saves it; an unknown id writes nothing.
     */
    method UpdateProjectData(projectId: string, kind: ResultType, result: string,
                             topic: Option<string>, now: string)
      returns (r: Option<ProjectWithData>)
      modifies this
      ensures r.None? <==> Find(old(AllProjects()), projectId).None?
      ensures r.None? ==> stored == old(stored)
      ensures r.Some? ==>
        var found := Find(old(AllProjects()), projectId).value;
        && r.value == found.(updatedAt := now, data := WithResult(found.data, kind, result, topic, now))
        && stored == Stored(Upsert(old(AllProjects()), r.value))
      ensures r.Some? ==> Find(AllProjects(), projectId) == r
    {
      var project := GetProject(projectId);
      if project.None? {
        return None;
      }
      var p := project.value;
      p := p.(updatedAt := now);
      match kind {
        case SiteAnalysisKind =>
          p := p.(data := p.data.(siteAnalysis := Some(GeneratedResult(result, now))));
        case SeoSuggestionsKind =>
          p := p.(data := p.data.(seoSuggestions := Some(GeneratedResult(result, now))));
        case TopicClusterKind =>
          p := p.(data := p.data.(topicCluster := Some(TopicResult(result, now, TopicOr(topic)))));
        case ArticleGenerationKind =>
          p := p.(data := p.data.(articleGeneration := Some(TopicResult(result, now, TopicOr(topic)))));
      }
      SaveProject(p);
      r := Some(p);
    }

    /**
     * `deleteProject`: removes every project holding the id and answers
     * true, or answers false and writes nothing when none holds it.
     */
    method DeleteProject(id: string) returns (deleted: bool)
      modifies this
      ensures deleted <==> exists j :: 0 <= j < |old(AllProjects())| && old(AllProjects())[j].id == id
      ensures !deleted ==> stored == old(stored)
      ensures deleted ==> stored == Stored(RemoveId(old(AllProjects()), id))
      ensures Find(AllProjects(), id).None?
    {
      var projects := GetAllProjects();
      assert projects == AllProjects();
      var filteredProjects := RemoveId(projects, id);
      if |filteredProjects| == |projects| {
        return false;
      }
      stored := Stored(filteredProjects);
      return true;
    }
  }
}
