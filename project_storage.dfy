/**
 * `ProjectStorage`: the projects as one JSON array under
 * `article-projects`, each project's results under its own key
 * `project-data-<id>`, and the selected project's id under
 * `current-project-id`. Each key is a field of the class, holding the value
 * JSON decoding gives back. When there is no `window` (server-side
 * rendering), every write does nothing and every read answers the empty
 * value.
 */
module Storage {
  import opened Wrappers
  import opened Text
  import opened ProjectTypes
  import Manager

  const ProjectsKey: string := "article-projects"
  const DataKeyPrefix: string := "project-data-"
  const CurrentProjectKey: string := "current-project-id"

  /**
   * `STORAGE_KEYS.PROJECT_DATA(id)`. Distinct ids get distinct keys, and no
   * data key is the key of the project list, of the selection or of the
   * `ProjectManager` list, so the four kinds of item never overwrite each other.
   */
  function DataKey(id: string): (k: string)
    ensures StartsWith(k, DataKeyPrefix) && k[|DataKeyPrefix|..] == id
    ensures k != ProjectsKey && k != CurrentProjectKey && k != Manager.StorageKey
  {
    var k := DataKeyPrefix + id;
    assert k[0] != ProjectsKey[0] && k[0] != CurrentProjectKey[0] && k[0] != Manager.StorageKey[0];
    k
  }

  /** `findIndex(p => p.id === id)` over the project list. */
  function FindProjectIndex(ps: seq<Project>, id: string): (k: int)
    ensures -1 <= k < |ps|
    ensures k >= 0 ==> ps[k].id == id && forall j :: 0 <= j < k ==> ps[j].id != id
    ensures k == -1 <==> forall j :: 0 <= j < |ps| ==> ps[j].id != id
  {
    if ps == [] then -1
    else if ps[0].id == id then 0
    else
      var k := FindProjectIndex(ps[1..], id);
      if k == -1 then -1 else k + 1
  }

  /**
   * The list `saveProject` writes. A known id is overwritten in place by
   * `{ ...old, ...project, updatedAt: now }`: `project` carries every field
   * of a `Project`, so nothing of the old record survives but its position.
   * A new id is appended exactly as given.
   */
  function Saved(ps: seq<Project>, project: Project, now: string): (r: seq<Project>)
    ensures FindProjectIndex(ps, project.id) >= 0 ==>
      var k := FindProjectIndex(ps, project.id);
      && |r| == |ps|
      && r[k] == Project(project.id, project.name, project.url, project.createdAt, now)
      && forall j :: 0 <= j < |ps| && j != k ==> r[j] == ps[j]
    ensures FindProjectIndex(ps, project.id) == -1 ==> r == ps + [project]
  {
    var k := FindProjectIndex(ps, project.id);
    if k >= 0 then ps[k := project.(updatedAt := now)] else ps + [project]
  }

  /** After `saveProject` the list holds the project under its id, with only its time stamp possibly changed. */
  lemma SavedFinds(ps: seq<Project>, project: Project, now: string)
    ensures var r := Saved(ps, project, now);
      var k := FindProjectIndex(r, project.id);
      && k >= 0
      && r[k].name == project.name && r[k].url == project.url && r[k].createdAt == project.createdAt
      && (r[k].updatedAt == now || r[k] == project)
  {
    var r := Saved(ps, project, now);
    var k := FindProjectIndex(ps, project.id);
    if k >= 0 {
      assert forall j :: 0 <= j < k ==> r[j] == ps[j];
      assert r[k].id == project.id;
    } else {
      assert forall j :: 0 <= j < |ps| ==> r[j] == ps[j];
      assert r[|ps|].id == project.id;
    }
  }

  /** `filter(p => p.id !== id)` over the project list. */
  function RemoveProject(ps: seq<Project>, id: string): (r: seq<Project>)
    ensures |r| <= |ps|
    ensures forall j :: 0 <= j < |r| ==> r[j].id != id
    ensures forall x :: x in r <==> x in ps && x.id != id
    ensures |r| == |ps| <==> forall j :: 0 <= j < |ps| ==> ps[j].id != id
  {
    if ps == [] then []
    else if ps[0].id == id then
      RemoveProject(ps[1..], id)
    else
      var rest := RemoveProject(ps[1..], id);
      assert forall x :: x in ps <==> x == ps[0] || x in ps[1..];
      [ps[0]] + rest
  }

  /** The list `saveProjectData` writes back: the first project with the id gets the new time stamp. */
  function Touched(ps: seq<Project>, k: nat, now: string): (r: seq<Project>)
    requires k < |ps|
    ensures |r| == |ps| && r[k] == ps[k].(updatedAt := now)
    ensures forall j :: 0 <= j < |ps| && j != k ==> r[j] == ps[j]
  {
    ps[k := ps[k].(updatedAt := now)]
  }

  /**
   * `createProjectFromUrl`: the host name with its first `www.` removed,
   * followed by `のプロジェクト`. The host name parsed from the URL, the
   * generated id and the two clock readings come in as parameters.
   */
  function CreateProjectFromUrl(url: string, hostname: string, id: string,
                                createdAt: string, updatedAt: string): (p: Project)
    ensures p.id == id && p.url == url && p.createdAt == createdAt && p.updatedAt == updatedAt
    ensures p.name == ReplaceFirst(hostname, "www.", "") + "のプロジェクト"
  {
    Project(id, ReplaceFirst(hostname, "www.", "") + "のプロジェクト", url, createdAt, updatedAt)
  }

  /** A leading `www.` is dropped from the name. */
  lemma LeadingWwwDropped(url: string, host: string, id: string, createdAt: string, updatedAt: string)
    ensures CreateProjectFromUrl(url, "www." + host, id, createdAt, updatedAt).name == host + "のプロジェクト"
  {
    var h := "www." + host;
    assert h[0..][..4] == "www.";
    IndexOfFirst(h, "www.", 0);
    assert h[..0] + h[4..] == host;
  }

  /**
   * The replacement is not anchored: a `www.` after any beginning without a
   * `w` is removed as well, so `blog.awww.jp` is named `blog.ajp`.
   */
  lemma InnerWwwDropped(url: string, a: string, b: string, id: string, createdAt: string, updatedAt: string)
    requires 'w' !in a
    ensures CreateProjectFromUrl(url, a + "www." + b, id, createdAt, updatedAt).name == a + b + "のプロジェクト"
  {
    var h := a + "www." + b;
    assert h[|a|..][..4] == "www.";
    forall j | 0 <= j < |a| ensures !OccursAt(h, "www.", j) {
      assert h[j..][0] == a[j];
    }
    IndexOfFirst(h, "www.", |a|);
    assert h[..|a|] == a && h[|a| + 4..] == b;
  }

  class ProjectStorage {
    /** `typeof window !== 'undefined'`. */
    const windowDefined: bool
    /** The item under `article-projects`; `None` when missing or empty. */
    var projectsKey: Option<seq<Project>>
    /** The items under the `project-data-<id>` keys, by key. */
    var dataKeys: map<string, ProjectData>
    /** The item under `current-project-id`; `None` when missing. */
    var currentId: Option<string>

    constructor (windowDefined: bool, projectsKey: Option<seq<Project>>,
                 dataKeys: map<string, ProjectData>, currentId: Option<string>)
      ensures this.windowDefined == windowDefined && this.projectsKey == projectsKey
      ensures this.dataKeys == dataKeys && this.currentId == currentId
    {
      this.windowDefined := windowDefined;
      this.projectsKey := projectsKey;
      this.dataKeys := dataKeys;
      this.currentId := currentId;
    }

    /** The list `getProjects` answers. */
    function Projects(): seq<Project>
      reads this
    {
      if windowDefined && projectsKey.Some? then projectsKey.value else []
    }

    /** The results `getProjectData` answers for an id. */
    function StoredData(id: string): ProjectData
      reads this
    {
      if windowDefined && DataKey(id) in dataKeys then dataKeys[DataKey(id)] else EmptyData
    }

    /** The id `getCurrentProjectId` answers. */
    function CurrentProjectId(): string
      reads this
    {
      if windowDefined then currentId.GetOr("") else ""
    }

    /** `getProjects`: the stored list; none without a window or when the item is missing. */
    method GetProjects() returns (ps: seq<Project>)
      ensures windowDefined && projectsKey.Some? ==> ps == projectsKey.value
      ensures !windowDefined || projectsKey.None? ==> ps == []
    {
      if !windowDefined {
        return [];
      }
      ps := projectsKey.GetOr([]);
    }

    /** `saveProject`. */
    method SaveProject(project: Project, now: string)
      modifies this
      ensures windowDefined ==> projectsKey == Some(Saved(old(Projects()), project, now))
      ensures !windowDefined ==> projectsKey == old(projectsKey)
      ensures dataKeys == old(dataKeys) && currentId == old(currentId)
    {
      if !windowDefined {
        return;
      }
      var projects := GetProjects();
      var existingIndex := FindProjectIndex(projects, project.id);
      if existingIndex >= 0 {
        projects := projects[existingIndex := project.(updatedAt := now)];
      } else {
        projects := projects + [project];
      }
      projectsKey := Some(projects);
    }

    /**
     * `deleteProject`: drops every project with the id and its results, and
     * clears the selection when it was that id.
     */
    method DeleteProject(projectId: string)
      modifies this
      ensures windowDefined ==>
        && projectsKey == Some(RemoveProject(old(Projects()), projectId))
        && dataKeys == old(dataKeys) - {DataKey(projectId)}
        && currentId == if old(CurrentProjectId()) == projectId then Some("") else old(currentId)
      ensures !windowDefined ==>
        projectsKey == old(projectsKey) && dataKeys == old(dataKeys) && currentId == old(currentId)
      ensures StoredData(projectId) == EmptyData
      ensures forall j :: 0 <= j < |Projects()| ==> Projects()[j].id != projectId
    {
      if !windowDefined {
        return;
      }
      var projects := GetProjects();
      projects := RemoveProject(projects, projectId);
      projectsKey := Some(projects);
      dataKeys := dataKeys - {DataKey(projectId)};
      var current := GetCurrentProjectId();
      if current == projectId {
        SetCurrentProject("");
      }
    }

    /** `getProjectData`: the stored results for the id, or none. */
    method GetProjectData(projectId: string) returns (data: ProjectData)
      ensures windowDefined && DataKey(projectId) in dataKeys ==> data == dataKeys[DataKey(projectId)]
      ensures !windowDefined || DataKey(projectId) !in dataKeys ==> data == EmptyData
    {
      if !windowDefined {
        return EmptyData;
      }
      var key := DataKey(projectId);
      if key in dataKeys {
        data := dataKeys[key];
      } else {
        data := EmptyData;
      }
    }

    /**
     * `saveProjectData`: stores the results under the id's key and stamps
     * the first project with that id; the list is written back only when
     * such a project exists.
     */
    method SaveProjectData(projectId: string, data: ProjectData, now: string)
      modifies this
      ensures windowDefined ==> dataKeys == old(dataKeys)[DataKey(projectId) := data]
      ensures windowDefined && FindProjectIndex(old(Projects()), projectId) >= 0 ==>
        projectsKey == Some(Touched(old(Projects()), FindProjectIndex(old(Projects()), projectId), now))
      ensures !windowDefined || FindProjectIndex(old(Projects()), projectId) == -1 ==> projectsKey == old(projectsKey)
      ensures !windowDefined ==> dataKeys == old(dataKeys)
      ensures currentId == old(currentId)
      ensures windowDefined ==> StoredData(projectId) == data
    {
      if !windowDefined {
        return;
      }
      dataKeys := dataKeys[DataKey(projectId) := data];
      var projects := GetProjects();
      var projectIndex := FindProjectIndex(projects, projectId);
      if projectIndex >= 0 {
        projects := projects[projectIndex := projects[projectIndex].(updatedAt := now)];
        projectsKey := Some(projects);
      }
    }

    /** `getProjectWithData`: the first project with the id, joined with its results; null when there is none. */
    method GetProjectWithData(projectId: string) returns (r: Option<ProjectWithData>)
      ensures r.None? <==> FindProjectIndex(Projects(), projectId) == -1
      ensures r.Some? ==> r.value == WithData(Projects()[FindProjectIndex(Projects(), projectId)], StoredData(projectId))
    {
      var projects := GetProjects();
      assert projects == Projects();
      var k := FindProjectIndex(projects, projectId);
      if k < 0 {
        return None;
      }
      var data := GetProjectData(projectId);
      r := Some(WithData(projects[k], data));
    }

    /** `getCurrentProjectId`: the selected id, or the empty string. */
    method GetCurrentProjectId() returns (id: string)
      ensures windowDefined && currentId.Some? ==> id == currentId.value
      ensures !windowDefined || currentId.None? ==> id == ""
    {
      if !windowDefined {
        return "";
      }
      id := currentId.GetOr("");
    }

    /** `setCurrentProject`: selecting an id is what `getCurrentProjectId` answers next. */
    method SetCurrentProject(projectId: string)
      modifies this
      ensures windowDefined ==> currentId == Some(projectId)
      ensures !windowDefined ==> currentId == old(currentId)
      ensures projectsKey == old(projectsKey) && dataKeys == old(dataKeys)
      ensures windowDefined ==> CurrentProjectId() == projectId
    {
      if !windowDefined {
        return;
      }
      currentId := Some(projectId);
    }
  }
}
