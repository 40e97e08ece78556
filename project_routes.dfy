/**
 * The `/api/project/...` handlers, built like the post handlers. The
 * create, update and fetch handlers report a wrong method (and the create
 * and update handlers an empty form) under the key `error`; the list and
 * delete handlers use `message`.
 */
module ProjectRoutes {
  import opened Runtime
  import opened Models
  import opened Http
  import opened ProjectService
  import Utilities
  import Table

  /** The fields the create and update handlers insist on, in this order;
      `mode` is required although the service never reads it. */
  const RequiredFields: seq<string> := ["label", "text", "img", "stack", "link", "mode"]

  const NotAllowed: Response := Response(405, Message("error", "Method not allowed"))
  const MessageNotAllowed: Response := Response(405, Message("message", "Error. Method not allowed"))
  const NoData: Response := Response(400, Message("error", "No data provided"))
  const CreateFailed: Response := Response(500, Message("error", "Failed to create project"))
  const Updated: Response := Response(200, Message("message", "Record was successfully updated"))
  const NotListed: Response := Response(404, Message("message", "Projects were not found"))
  const NotFound: Response := Response(404, Message("message", "Project with such id does not exist"))
  const Deleted: Response := Response(200, Message("message", "Record was successfully deleted"))

  /** `POST /api/project/new`. `Returned(None)` stands for a falsy service
      result. */
  function NewProject(verb: string, data: Form, created: Outcome<Option<Project>>): (resp: Response)
    ensures !Utilities.CheckMethod(verb, "POST") ==> resp == NotAllowed
    ensures Utilities.CheckMethod(verb, "POST") && |data| == 0 ==> resp == NoData
    ensures Utilities.CheckMethod(verb, "POST") && |data| > 0 && !FormAccepted(verb, "POST", data, RequiredFields) ==>
              resp == MissingFieldsResponse(MissingFields(RequiredFields, data))
    ensures resp.status == 201 <==> FormAccepted(verb, "POST", data, RequiredFields) && created.Returned? && created.value.Some?
    ensures resp.status == 201 ==> resp.body == CreatedId(created.value.value.id)
    ensures FormAccepted(verb, "POST", data, RequiredFields) && created.Raised? ==> resp == InternalError(created.fault)
    ensures FormAccepted(verb, "POST", data, RequiredFields) && created == Returned(None) ==> resp == CreateFailed
  {
    match FormGuard(verb, "POST", data, RequiredFields, NotAllowed, NoData)
    case Some(rejection) => rejection
    case None =>
      match created
      case Raised(f) => InternalError(f)
      case Returned(None) => CreateFailed
      case Returned(Some(project)) => Response(201, CreatedId(project.id))
  }

  /** `PUT /api/project/update/<id>`: 200 when the service returns, 500
      when it raises, never 404. */
  function UpdateProjectById(verb: string, data: Form, updated: Outcome<()>): (resp: Response)
    ensures !Utilities.CheckMethod(verb, "PUT") ==> resp == NotAllowed
    ensures Utilities.CheckMethod(verb, "PUT") && |data| == 0 ==> resp == NoData
    ensures Utilities.CheckMethod(verb, "PUT") && |data| > 0 && !FormAccepted(verb, "PUT", data, RequiredFields) ==>
              resp == MissingFieldsResponse(MissingFields(RequiredFields, data))
    ensures FormAccepted(verb, "PUT", data, RequiredFields) ==> (resp == Updated <==> updated.Returned?)
    ensures FormAccepted(verb, "PUT", data, RequiredFields) && updated.Raised? ==> resp == InternalError(updated.fault)
    ensures resp.status != 404
  {
    match FormGuard(verb, "PUT", data, RequiredFields, NotAllowed, NoData)
    case Some(rejection) => rejection
    case None =>
      match updated
      case Raised(f) => InternalError(f)
      case Returned(_) => Updated
  }

  /** The update handler over the checked service call: a missing row
      (`Returned(false)`) gets the fetch handler's 404. */
  function UpdateProjectByIdChecked(verb: string, data: Form, updated: Outcome<bool>): (resp: Response)
    ensures !FormAccepted(verb, "PUT", data, RequiredFields) ==> resp == UpdateProjectById(verb, data, Returned(()))
    ensures FormAccepted(verb, "PUT", data, RequiredFields) ==> (resp == Updated <==> updated == Returned(true))
    ensures FormAccepted(verb, "PUT", data, RequiredFields) ==> (resp == NotFound <==> updated == Returned(false))
    ensures FormAccepted(verb, "PUT", data, RequiredFields) && updated.Raised? ==> resp == InternalError(updated.fault)
  {
    match FormGuard(verb, "PUT", data, RequiredFields, NotAllowed, NoData)
    case Some(rejection) => rejection
    case None =>
      match updated
      case Raised(f) => InternalError(f)
      case Returned(found) => if found then Updated else NotFound
  }

  /** `GET /api/project/list`. An empty list is falsy like `None`; a
      raising service call answers 500. */
  function GetAllProjects(verb: string, found: Outcome<Option<seq<Project>>>): (resp: Response)
    ensures !Utilities.CheckMethod(verb, "GET") ==> resp == MessageNotAllowed
    ensures Utilities.CheckMethod(verb, "GET") && found.Raised? ==> resp == InternalError(found.fault)
    ensures Utilities.CheckMethod(verb, "GET") && found.Returned? && (found.value.None? || found.value.value == []) ==> resp == NotListed
    ensures resp.status == 200 <==> Utilities.CheckMethod(verb, "GET") && found.Returned? && found.value.Some? && found.value.value != []
    ensures resp.status == 200 ==>
              resp.body.Records? && |resp.body.items| == |found.value.value| &&
              forall i :: 0 <= i < |found.value.value| ==> resp.body.items[i] == ProjectJson(found.value.value[i])
  {
    if !Utilities.CheckMethod(verb, "GET") then MessageNotAllowed
    else
      match found
      case Raised(f) => InternalError(f)
      case Returned(rows) =>
        if rows.None? || rows.value == [] then NotListed
        else Response(200, Records(seq(|rows.value|, i requires 0 <= i < |rows.value| => ProjectJson(rows.value[i]))))
  }

  /** `GET /api/project/<id>`: a negative id is refused before the lookup; a
      raising service call answers 500. */
  function GetProjectById(verb: string, id: int, found: Outcome<Option<Project>>): (resp: Response)
    ensures !Utilities.CheckMethod(verb, "GET") ==> resp == NotAllowed
    ensures Utilities.CheckMethod(verb, "GET") && id < 0 ==> resp == Response(400, MessageWithId("error", "Invalid id", id))
    ensures Utilities.CheckMethod(verb, "GET") && id >= 0 && found.Raised? ==> resp == InternalError(found.fault)
    ensures Utilities.CheckMethod(verb, "GET") && id >= 0 && found == Returned(None) ==> resp == NotFound
    ensures resp.status == 200 <==> Utilities.CheckMethod(verb, "GET") && id >= 0 && found.Returned? && found.value.Some?
    ensures resp.status == 200 ==> resp.body == Record(ProjectJson(found.value.value))
  {
    if !Utilities.CheckMethod(verb, "GET") then NotAllowed
    else if id < 0 then Response(400, MessageWithId("error", "Invalid id", id))
    else
      match found
      case Raised(f) => InternalError(f)
      case Returned(None) => NotFound
      case Returned(Some(row)) => Response(200, Record(ProjectJson(row)))
  }

  /** `DELETE /api/project/delete/<id>`. */
  function DeleteProjectById(verb: string, id: int, removed: Outcome<Option<Project>>): (resp: Response)
    ensures !Utilities.CheckMethod(verb, "DELETE") ==> resp == MessageNotAllowed
    ensures Utilities.CheckMethod(verb, "DELETE") && id < 0 ==> resp == Response(400, Message("message", "Error. Invalid id"))
    ensures Utilities.CheckMethod(verb, "DELETE") && id >= 0 ==>
              (removed.Raised? ==> resp == InternalError(removed.fault)) &&
              (removed == Returned(None) ==> resp == NotFound) &&
              (resp == Deleted <==> removed.Returned? && removed.value.Some?)
  {
    if !Utilities.CheckMethod(verb, "DELETE") then MessageNotAllowed
    else if id < 0 then Response(400, Message("message", "Error. Invalid id"))
    else
      match removed
      case Raised(f) => InternalError(f)
      case Returned(None) => NotFound
      case Returned(Some(_)) => Deleted
  }

  /** The handler's field check covers every key the service reads, so an
      accepted form never makes the service raise `KeyError`. */
  lemma AcceptedFormRaisesNoKeyError(verb: string, expected: string, data: Form, found: bool, storeError: Option<string>)
    requires FormAccepted(verb, expected, data, RequiredFields)
    ensures CreateFault(data, storeError) == if storeError.Some? then Some(DatabaseError(storeError.value)) else None
    ensures found ==> UpdateFault(data, found, storeError) == CreateFault(data, storeError)
    ensures !found ==> UpdateFault(data, found, storeError) == Some(AttributeError("NoneType", "label"))
  {
    assert HasProjectKeys(data);
    CompleteFormFailsOnlyInStore(data, found, storeError);
  }

  /** Whatever the store does, an accepted update of a missing row answers
      500 with the `NoneType` error, where the fetch handler answers 404. */
  lemma UpdateOfMissingProjectIs500(verb: string, data: Form, storeError: Option<string>)
    requires FormAccepted(verb, "PUT", data, RequiredFields)
    ensures UpdateProjectById(verb, data, Raised(UpdateFault(data, false, storeError).value)) ==
              InternalError(AttributeError("NoneType", "label"))
    ensures GetProjectById("GET", 0, Returned(None)) == NotFound
  {
    AcceptedFormRaisesNoKeyError(verb, "PUT", data, false, storeError);
  }

  /** The listing answer holds one record per stored project, and the record
      of every stored project. */
  lemma ListAnswersEveryProject(projects: map<int, Project>, resp: Response)
    requires projects != map[] && resp == GetAllProjects("GET", Returned(Some(Table.Listing(projects))))
    ensures resp.status == 200 && resp.body.Records? && |resp.body.items| == |projects|
    ensures forall k :: k in projects ==> ProjectJson(projects[k]) in resp.body.items
  {
    var rows := Table.Listing(projects);
    assert |rows| == |projects| && |projects| > 0;
    assert Utilities.CheckMethod("GET", "GET");
    Table.ListingHoldsEveryRow(projects);
    assert forall i :: 0 <= i < |rows| ==> resp.body.items[i] == ProjectJson(rows[i]);
    forall k | k in projects
      ensures ProjectJson(projects[k]) in resp.body.items
    {
      var p := projects[k];
      assert p in rows;
      Table.MappedHoldsImage(rows, resp.body.items, ProjectJson, p);
    }
  }

  /** A complete form. */
  function SampleForm(): (data: Form)
    ensures |data| > 0 && forall f :: f in RequiredFields ==> f in data
  {
    var data := map["label" := "Site", "text" := "A portfolio", "img" := "site.png", "stack" := "Flask",
                    "link" := "https://example.org", "mode" := "light"];
    assert "label" in data;
    data
  }

  /** Updating an id that was never created answers 500, not 404. */
  method UpdateOfUnknownProject() returns (resp: Response)
    ensures resp == InternalError(AttributeError("NoneType", "label"))
    ensures resp.status == 500
  {
    var table := new ProjectTable();
    var data := SampleForm();
    var updated := table.UpdateProjectById(data, 7, None, None);
    resp := UpdateProjectById("PUT", data, updated);
  }

  /** The same request through the checked service call answers 404. */
  method UpdateOfUnknownProjectChecked() returns (resp: Response)
    ensures resp == NotFound
  {
    var table := new ProjectTable();
    var data := SampleForm();
    var updated := table.UpdateProjectByIdChecked(data, 7, None, None);
    resp := UpdateProjectByIdChecked("PUT", data, updated);
  }

  /** Created over HTTP, read back over HTTP: the record is the form's
      fields under the id the create call answered with. */
  method CreateThenFetch(table: ProjectTable, data: Form) returns (created: Response, fetched: Response)
    requires table.Valid() && FormAccepted("POST", "POST", data, RequiredFields)
    modifies table
    ensures created.status == 201 && created.body.CreatedId? && created.body.id >= 1
    ensures fetched == Response(200, Record(ProjectJson(ProjectFromForm(created.body.id, data))))
  {
    AcceptedFormRaisesNoKeyError("POST", "POST", data, false, None);
    var project := table.NewProject(data, None);
    created := NewProject("POST", data, Returned(Some(project.value)));
    var found := table.GetProjectById(project.value.id, None);
    fetched := GetProjectById("GET", project.value.id, found);
  }

  /** Deleted over HTTP, the record is gone: fetching it answers 404 and
      deleting it again answers 404 too. */
  method DeleteThenFetch(table: ProjectTable, id: int) returns (deleted: Response, fetched: Response, again: Response)
    requires table.Valid() && id >= 0 && id in table.projects
    modifies table
    ensures deleted == Deleted && fetched == NotFound && again == NotFound
    ensures table.projects == old(table.projects) - {id}
  {
    var removed := table.DeleteProjectById(id, None, None);
    deleted := DeleteProjectById("DELETE", id, removed);
    var found := table.GetProjectById(id, None);
    fetched := GetProjectById("GET", id, found);
    removed := table.DeleteProjectById(id, None, None);
    again := DeleteProjectById("DELETE", id, removed);
  }

  /** A failing lookup is answered alike by the fetch and the delete: the
      store's error as a 500, whether or not the row exists. */
  method LookupFailureIs500(table: ProjectTable, id: int, error: string) returns (fetched: Response, deleted: Response)
    requires table.Valid() && id >= 0
    modifies table
    ensures fetched == InternalError(DatabaseError(error)) && deleted == fetched
    ensures table.projects == old(table.projects)
  {
    var found := table.GetProjectById(id, Some(error));
    fetched := GetProjectById("GET", id, found);
    var removed := table.DeleteProjectById(id, Some(error), None);
    deleted := DeleteProjectById("DELETE", id, removed);
  }
}
