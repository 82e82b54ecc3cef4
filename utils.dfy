/**
 * The project catalog of app/utils.py. The catalog is the JSON object read
 * by load_projects; the model takes it as given, as its entries
 * `(name, project)` in the dictionary's iteration order.
 */
module Utils {
  import opened Wrappers

  /** One catalog entry: the fields the routes read (title and description only reach templates). */
  datatype Project = Project(downloadLink: string, private: bool, role: int)

  type Catalog = seq<(string, Project)>

  const DownloadPrefix := "/download/"

  /** The link under which `file` is served. */
  function LinkFor(file: string): string
  {
    DownloadPrefix + file
  }

  /** Entry i is the first whose download link is `link`. */
  ghost predicate IsFirstMatch(projects: Catalog, link: string, i: int)
  {
    && 0 <= i < |projects|
    && projects[i].1.downloadLink == link
    && forall j :: 0 <= j < i ==> projects[j].1.downloadLink != link
  }

  /**
   * get_project_from_filename: scan the values in order and return the
   * first project whose download link is "/download/" + file, or None when
   * the loop ends without a match.
   */
  function GetProjectFromFilename(file: string, projects: Catalog): (r: Option<Project>)
    ensures r.None? <==> forall i :: 0 <= i < |projects| ==> projects[i].1.downloadLink != LinkFor(file)
    ensures r.Some? ==> r.value.downloadLink == LinkFor(file)
    ensures r.Some? ==> exists i :: IsFirstMatch(projects, LinkFor(file), i) && projects[i].1 == r.value
  {
    if projects == [] then None
    else if projects[0].1.downloadLink == LinkFor(file) then
      assert IsFirstMatch(projects, LinkFor(file), 0);
      Some(projects[0].1)
    else
      var r := GetProjectFromFilename(file, projects[1..]);
      assert forall i :: IsFirstMatch(projects[1..], LinkFor(file), i) ==> IsFirstMatch(projects, LinkFor(file), i + 1);
      r
  }

  /** No two entries share a download link (the catalog's invariant). */
  ghost predicate UniqueLinks(projects: Catalog)
  {
    forall i, j :: 0 <= i < |projects| && 0 <= j < |projects| && projects[i].1.downloadLink == projects[j].1.downloadLink ==> i == j
  }

  /** With unique links, a filename names at most one project, and the lookup finds it. */
  lemma LookupUnique(file: string, projects: Catalog, i: int)
    requires UniqueLinks(projects)
    requires 0 <= i < |projects| && projects[i].1.downloadLink == LinkFor(file)
    ensures GetProjectFromFilename(file, projects) == Some(projects[i].1)
  {
    var r := GetProjectFromFilename(file, projects);
    var k :| IsFirstMatch(projects, LinkFor(file), k) && projects[k].1 == r.value;
    assert k == i;
  }
}
