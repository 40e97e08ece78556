/**
 * `ProjectService`: create, overwrite, list, fetch and delete rows of the
 * `projects` table, each mutation committed or rolled back as a whole.
 */
module ProjectService {
  import opened Runtime
  import opened Models
  import Table

  /** The form keys `new_project` and `update_project_by_id` read, in the
      order they read them. */
  const ProjectKeys: seq<string> := ["label", "text", "img", "stack", "link"]

  predicate HasProjectKeys(data: Form)
  {
    forall k :: k in ProjectKeys ==> k in data
  }

  /** The row `new_project` builds for a complete form. */
  function ProjectFromForm(id: int, data: Form): (p: Project)
    requires HasProjectKeys(data)
    ensures p.id == id
  {
    Project(id, data["label"], data["text"], data["img"], data["stack"], data["link"])
  }

  /** The row `update_project_by_id` leaves behind: the five columns
      replaced from the form, the key kept. */
  function Overwrite(p: Project, data: Form): (q: Project)
    requires HasProjectKeys(data)
    ensures q == ProjectFromForm(p.id, data)
  {
    p.(labelText := data["label"], text := data["text"], img := data["img"], stack := data["stack"],
       link := data["link"])
  }

  /** What `new_project` raises: the `KeyError` of the first absent key,
      else the store's error, if there is one. */
  function CreateFault(data: Form, storeError: Option<string>): Option<Fault>
  {
    match FirstMissing(ProjectKeys, data)
    case Some(key) => Some(KeyError(key))
    case None => if storeError.Some? then Some(DatabaseError(storeError.value)) else None
  }

  /** What `update_project_by_id` raises: `data['label']` first, then the
      `AttributeError` of a missing row, then the remaining keys in order
      and the commit. */
  function UpdateFault(data: Form, found: bool, storeError: Option<string>): Option<Fault>
  {
    if "label" !in data then Some(KeyError("label"))
    else if !found then Some(AttributeError("NoneType", "label"))
    else CreateFault(data, storeError)
  }

  /** A form with every key can fail only in the store. */
  lemma CompleteFormFailsOnlyInStore(data: Form, found: bool, storeError: Option<string>)
    requires HasProjectKeys(data)
    ensures CreateFault(data, storeError) == if storeError.Some? then Some(DatabaseError(storeError.value)) else None
    ensures found ==> UpdateFault(data, found, storeError) == CreateFault(data, storeError)
  {
  }

  /** An update of a missing row never succeeds. */
  lemma UpdateOfMissingRowRaises(data: Form, storeError: Option<string>)
    ensures UpdateFault(data, false, storeError).Some?
    ensures "label" in data ==> UpdateFault(data, false, storeError) == Some(AttributeError("NoneType", "label"))
  {
  }

  predicate IdsMatchKeys(rows: map<int, Project>)
  {
    forall k :: k in rows ==> rows[k].id == k
  }

  class ProjectTable {
    var projects: map<int, Project>

    ghost predicate Valid()
      reads this
    {
      IdsMatchKeys(projects) && Table.PositiveKeys(projects)
    }

    constructor ()
      ensures Valid() && projects == map[]
    {
      projects := map[];
    }

    /** `new_project(data)`: on success exactly one new row under an unused
        id, built from the form; on failure no change. */
    method NewProject(data: Form, storeError: Option<string>) returns (r: Outcome<Project>)
      requires Valid()
      modifies this
      ensures Valid()
      ensures r.Raised? <==> CreateFault(data, storeError).Some?
      ensures r.Raised? ==> r.fault == CreateFault(data, storeError).value && projects == old(projects)
      ensures r.Returned? ==> HasProjectKeys(data) && r.value.id >= 1 && r.value.id !in old(projects)
      ensures r.Returned? ==> r.value == ProjectFromForm(r.value.id, data) && projects == old(projects)[r.value.id := r.value]
    {
      var missing := FirstMissing(ProjectKeys, data);
      if missing.Some? {
        return Raised(KeyError(missing.value));
      }
      var project := ProjectFromForm(Table.NextId(projects.Keys), data);
      var staged := projects[project.id := project];
      if storeError.Some? {
        // Rolled back: the staged row is discarded.
        return Raised(DatabaseError(storeError.value));
      }
      projects := staged;
      return Returned(project);
    }

    /** `update_project_by_id(data, id)`: loads the row, assigns its fields one by
        one and commits; anything raised rolls the session back. A failing
        lookup (`lookupError`) raises before any field is read, a failing
        commit (`storeError`) after every field is assigned. */
    method UpdateProjectById(data: Form, id: int, lookupError: Option<string>, storeError: Option<string>) returns (r: Outcome<()>)
      requires Valid()
      modifies this
      ensures Valid()
      ensures lookupError.Some? ==> r == Raised(DatabaseError(lookupError.value)) && projects == old(projects)
      ensures lookupError.None? ==> (r.Raised? <==> UpdateFault(data, id in old(projects), storeError).Some?)
      ensures lookupError.None? && r.Raised? ==> r.fault == UpdateFault(data, id in old(projects), storeError).value && projects == old(projects)
      ensures r.Returned? ==> id in old(projects) && HasProjectKeys(data)
      ensures r.Returned? ==> projects == old(projects)[id := Overwrite(old(projects)[id], data)]
    {
      if lookupError.Some? {
        // The lookup itself fails: rolled back and re-raised.
        return Raised(DatabaseError(lookupError.value));
      }
      var found := if id in projects then Some(projects[id]) else None;
      if "label" !in data {
        return Raised(KeyError("label"));
      }
      if found.None? {
        return Raised(AttributeError("NoneType", "label"));
      }
      var row := found.value.(labelText := data["label"]);
      if "text" !in data {
        FirstMissingAt(ProjectKeys, data, 1);
        return Raised(KeyError("text"));
      }
      row := row.(text := data["text"]);
      if "img" !in data {
        FirstMissingAt(ProjectKeys, data, 2);
        return Raised(KeyError("img"));
      }
      row := row.(img := data["img"]);
      if "stack" !in data {
        FirstMissingAt(ProjectKeys, data, 3);
        return Raised(KeyError("stack"));
      }
      row := row.(stack := data["stack"]);
      if "link" !in data {
        FirstMissingAt(ProjectKeys, data, 4);
        return Raised(KeyError("link"));
      }
      row := row.(link := data["link"]);
      if storeError.Some? {
        // Rolled back: the edited row is discarded.
        return Raised(DatabaseError(storeError.value));
      }
      projects := projects[id := row];
      return Returned(());
    }

    /** The update with the existence check `update_project_by_id` lacks:
        a missing row is reported as `false`, with nothing read from the form
        and nothing changed; a failing lookup and an existing row behave as
        before. */
    method UpdateProjectByIdChecked(data: Form, id: int, lookupError: Option<string>, storeError: Option<string>) returns (r: Outcome<bool>)
      requires Valid()
      modifies this
      ensures Valid()
      ensures lookupError.Some? ==> r == Raised(DatabaseError(lookupError.value)) && projects == old(projects)
      ensures lookupError.None? && id !in old(projects) ==> r == Returned(false) && projects == old(projects)
      ensures lookupError.None? && id in old(projects) ==> (r.Raised? <==> UpdateFault(data, true, storeError).Some?)
      ensures lookupError.None? && id in old(projects) && r.Raised? ==> r.fault == UpdateFault(data, true, storeError).value && projects == old(projects)
      ensures lookupError.None? && id in old(projects) && r.Returned? ==>
                r.value && HasProjectKeys(data) && projects == old(projects)[id := Overwrite(old(projects)[id], data)]
    {
      if lookupError.Some? {
        return Raised(DatabaseError(lookupError.value));
      }
      if id !in projects {
        return Returned(false);
      }
      var done := UpdateProjectById(data, id, None, storeError);
      match done
      case Raised(f) => return Raised(f);
      case Returned(_) => return Returned(true);
    }

    /** `get_all_projects()`: a failing read re-raises; otherwise the scan. */
    method GetAllProjects(storeError: Option<string>) returns (r: Outcome<Option<seq<Project>>>)
      requires Valid()
      ensures r.Raised? <==> storeError.Some?
      ensures r.Raised? ==> r.fault == DatabaseError(storeError.value)
      ensures r.Returned? ==> r.value == Table.QueryAll(projects)
    {
      if storeError.Some? {
        return Raised(DatabaseError(storeError.value));
      }
      var all := Table.Listing(projects);
      if |all| == 0 {
        return Returned(None);
      }
      return Returned(Some(all));
    }

    /** `get_project_by_id(id)`: a failing read re-raises; otherwise the
        stored row or `None`. Nothing changes. */
    method GetProjectById(id: int, storeError: Option<string>) returns (r: Outcome<Option<Project>>)
      requires Valid()
      ensures r.Raised? <==> storeError.Some?
      ensures r.Raised? ==> r.fault == DatabaseError(storeError.value)
      ensures r.Returned? ==> (r.value.None? <==> id !in projects)
      ensures r.Returned? && r.value.Some? ==> r.value.value == projects[id] && r.value.value.id == id
    {
      if storeError.Some? {
        return Raised(DatabaseError(storeError.value));
      }
      if id !in projects {
        return Returned(None);
      }
      return Returned(Some(projects[id]));
    }

    /** `delete_project_by_id(id)`: a failing lookup (`lookupError`) re-raises;
        `None` for a missing row; otherwise removes exactly that row and
        returns it, unless the commit (`storeError`) fails. */
    method DeleteProjectById(id: int, lookupError: Option<string>, storeError: Option<string>) returns (r: Outcome<Option<Project>>)
      requires Valid()
      modifies this
      ensures Valid()
      ensures lookupError.Some? ==> r == Raised(DatabaseError(lookupError.value)) && projects == old(projects)
      ensures lookupError.None? && id !in old(projects) ==> r == Returned(None) && projects == old(projects)
      ensures lookupError.None? && id in old(projects) && storeError.Some? ==> r == Raised(DatabaseError(storeError.value)) && projects == old(projects)
      ensures lookupError.None? && id in old(projects) && storeError.None? ==> r == Returned(Some(old(projects)[id])) && projects == old(projects) - {id}
    {
      if lookupError.Some? {
        return Raised(DatabaseError(lookupError.value));
      }
      if id !in projects {
        return Returned(None);
      }
      var removed := projects[id];
      var staged := projects - {id};
      if storeError.Some? {
        return Raised(DatabaseError(storeError.value));
      }
      projects := staged;
      return Returned(Some(removed));
    }
  }

  /** A created project reads back as built from the form. */
  method CreateThenGet(table: ProjectTable, data: Form) returns (created: Outcome<Project>, fetched: Outcome<Option<Project>>)
    requires table.Valid() && HasProjectKeys(data)
    modifies table
    ensures created.Returned? && fetched == Returned(Some(created.value))
    ensures created.value == ProjectFromForm(created.value.id, data)
  {
    CompleteFormFailsOnlyInStore(data, false, None);
    created := table.NewProject(data, None);
    fetched := table.GetProjectById(created.value.id, None);
  }

  /** An update is a full overwrite: the row reads back as the form. */
  method UpdateThenGet(table: ProjectTable, data: Form, id: int) returns (updated: Outcome<()>, fetched: Outcome<Option<Project>>)
    requires table.Valid() && HasProjectKeys(data) && id in table.projects
    modifies table
    ensures updated.Returned? && fetched == Returned(Some(ProjectFromForm(id, data)))
  {
    CompleteFormFailsOnlyInStore(data, true, None);
    updated := table.UpdateProjectById(data, id, None, None);
    fetched := table.GetProjectById(id, None);
  }

  /** Deleting twice: the first call returns the row, the second `None`. */
  method DeleteTwice(table: ProjectTable, id: int) returns (first: Outcome<Option<Project>>, second: Outcome<Option<Project>>)
    requires table.Valid() && id in table.projects
    modifies table
    ensures first == Returned(Some(old(table.projects)[id])) && second == Returned(None)
    ensures table.projects == old(table.projects) - {id}
  {
    first := table.DeleteProjectById(id, None, None);
    second := table.DeleteProjectById(id, None, None);
  }
}
