/**
 * The `/api/technology/...` handlers, built like the post handlers. Only
 * the update handler reports a wrong method and an empty form under the
 * key `error`. The group handler, as written, never reaches its service.
 */
module TechnologyRoutes {
  import opened Runtime
  import opened Models
  import opened Http
  import opened TechnologyService
  import Utilities
  import Table

  /** The fields the create and update handlers insist on, in this order. */
  const RequiredFields: seq<string> := ["label", "img", "group", "mode"]

  const NotAllowed: Response := Response(405, Message("message", "Error. Method not allowed"))
  const NoData: Response := Response(400, Message("message", "Error. No data provided"))
  const UpdateNotAllowed: Response := Response(405, Message("error", "Method not allowed"))
  const UpdateNoData: Response := Response(400, Message("error", "No data provided"))
  const CreateFailed: Response := Response(500, Message("message", "Error. Failed to create technology"))
  const Updated: Response := Response(200, Message("message", "Record was successfully updated"))
  const NotListed: Response := Response(404, Message("message", "Technologies were not found"))
  const NotFound: Response := Response(404, Message("message", "Technology with such id does not exist"))
  const GroupNotFound: Response := Response(404, Message("message", "Technologies with such group does not exist"))
  const Deleted: Response := Response(200, Message("message", "Record was successfully deleted"))

  /** `POST /api/technology/new`. `Returned(None)` stands for a falsy service
      result. */
  function NewTechnology(verb: string, data: Form, created: Outcome<Option<Technology>>): (resp: Response)
    ensures !Utilities.CheckMethod(verb, "POST") ==> resp == NotAllowed
    ensures Utilities.CheckMethod(verb, "POST") && |data| == 0 ==> resp == NoData
    ensures Utilities.CheckMethod(verb, "POST") && |data| > 0 && !FormAccepted(verb, "POST", data, RequiredFields) ==>
              resp == MissingFieldsResponse(MissingFields(RequiredFields, data))
    ensures resp.status == 201 <==> FormAccepted(verb, "POST", data, RequiredFields) && created.Returned? && created.value.Some?
    ensures resp.status == 201 ==> resp.body == CreatedId(created.value.value.id)
    ensures FormAccepted(verb, "POST", data, RequiredFields) && created.Raised? ==> resp == InternalError(created.fault)
    ensures FormAccepted(verb, "POST", data, RequiredFields) && created == Returned(None) ==> resp == CreateFailed
  {
    match FormGuard(verb, "POST", data, RequiredFields, NotAllowed, NoData)
    case Some(rejection) => rejection
    case None =>
      match created
      case Raised(f) => InternalError(f)
      case Returned(None) => CreateFailed
      case Returned(Some(technology)) => Response(201, CreatedId(technology.id))
  }

  /** `PUT /api/technology/update/<id>`: 200 when the service returns, 500
      when it raises, never 404. */
  function UpdateTechnologyById(verb: string, data: Form, updated: Outcome<()>): (resp: Response)
    ensures !Utilities.CheckMethod(verb, "PUT") ==> resp == UpdateNotAllowed
    ensures Utilities.CheckMethod(verb, "PUT") && |data| == 0 ==> resp == UpdateNoData
    ensures Utilities.CheckMethod(verb, "PUT") && |data| > 0 && !FormAccepted(verb, "PUT", data, RequiredFields) ==>
              resp == MissingFieldsResponse(MissingFields(RequiredFields, data))
    ensures FormAccepted(verb, "PUT", data, RequiredFields) ==> (resp == Updated <==> updated.Returned?)
    ensures FormAccepted(verb, "PUT", data, RequiredFields) && updated.Raised? ==> resp == InternalError(updated.fault)
    ensures resp.status != 404
  {
    match FormGuard(verb, "PUT", data, RequiredFields, UpdateNotAllowed, UpdateNoData)
    case Some(rejection) => rejection
    case None =>
      match updated
      case Raised(f) => InternalError(f)
      case Returned(_) => Updated
  }

  /** The update handler over the checked service call: a missing row
      (`Returned(false)`) gets the fetch handler's 404. */
  function UpdateTechnologyByIdChecked(verb: string, data: Form, updated: Outcome<bool>): (resp: Response)
    ensures !FormAccepted(verb, "PUT", data, RequiredFields) ==> resp == UpdateTechnologyById(verb, data, Returned(()))
    ensures FormAccepted(verb, "PUT", data, RequiredFields) ==> (resp == Updated <==> updated == Returned(true))
    ensures FormAccepted(verb, "PUT", data, RequiredFields) ==> (resp == NotFound <==> updated == Returned(false))
    ensures FormAccepted(verb, "PUT", data, RequiredFields) && updated.Raised? ==> resp == InternalError(updated.fault)
  {
    match FormGuard(verb, "PUT", data, RequiredFields, UpdateNotAllowed, UpdateNoData)
    case Some(rejection) => rejection
    case None =>
      match updated
      case Raised(f) => InternalError(f)
      case Returned(found) => if found then Updated else NotFound
  }

  /** `GET /api/technology/list`. An empty list is falsy like `None`; a
      raising service call answers 500. */
  function GetAllTechnologies(verb: string, found: Outcome<Option<seq<Technology>>>): (resp: Response)
    ensures !Utilities.CheckMethod(verb, "GET") ==> resp == NotAllowed
    ensures Utilities.CheckMethod(verb, "GET") && found.Raised? ==> resp == InternalError(found.fault)
    ensures Utilities.CheckMethod(verb, "GET") && found.Returned? && (found.value.None? || found.value.value == []) ==> resp == NotListed
    ensures resp.status == 200 <==> Utilities.CheckMethod(verb, "GET") && found.Returned? && found.value.Some? && found.value.value != []
    ensures resp.status == 200 ==>
              resp.body.Records? && |resp.body.items| == |found.value.value| &&
              forall i :: 0 <= i < |found.value.value| ==> resp.body.items[i] == TechnologyJson(found.value.value[i])
  {
    if !Utilities.CheckMethod(verb, "GET") then NotAllowed
    else
      match found
      case Raised(f) => InternalError(f)
      case Returned(rows) =>
        if rows.None? || rows.value == [] then NotListed
        else Response(200, Records(seq(|rows.value|, i requires 0 <= i < |rows.value| => TechnologyJson(rows.value[i]))))
  }

  /** `GET /api/technology/<id>`: a negative id is refused before the lookup; a
      raising service call answers 500. */
  function GetTechnologyById(verb: string, id: int, found: Outcome<Option<Technology>>): (resp: Response)
    ensures !Utilities.CheckMethod(verb, "GET") ==> resp == NotAllowed
    ensures Utilities.CheckMethod(verb, "GET") && id < 0 ==> resp == Response(400, MessageWithId("message", "Error. Invalid id", id))
    ensures Utilities.CheckMethod(verb, "GET") && id >= 0 && found.Raised? ==> resp == InternalError(found.fault)
    ensures Utilities.CheckMethod(verb, "GET") && id >= 0 && found == Returned(None) ==> resp == NotFound
    ensures resp.status == 200 <==> Utilities.CheckMethod(verb, "GET") && id >= 0 && found.Returned? && found.value.Some?
    ensures resp.status == 200 ==> resp.body == Record(TechnologyJson(found.value.value))
  {
    if !Utilities.CheckMethod(verb, "GET") then NotAllowed
    else if id < 0 then Response(400, MessageWithId("message", "Error. Invalid id", id))
    else
      match found
      case Raised(f) => InternalError(f)
      case Returned(None) => NotFound
      case Returned(Some(row)) => Response(200, Record(TechnologyJson(row)))
  }

  /** `DELETE /api/technology/delete/<id>`. */
  function DeleteTechnologyById(verb: string, id: int, removed: Outcome<Option<Technology>>): (resp: Response)
    ensures !Utilities.CheckMethod(verb, "DELETE") ==> resp == NotAllowed
    ensures Utilities.CheckMethod(verb, "DELETE") && id < 0 ==> resp == Response(400, Message("message", "Error. Invalid id"))
    ensures Utilities.CheckMethod(verb, "DELETE") && id >= 0 ==>
              (removed.Raised? ==> resp == InternalError(removed.fault)) &&
              (removed == Returned(None) ==> resp == NotFound) &&
              (resp == Deleted <==> removed.Returned? && removed.value.Some?)
  {
    if !Utilities.CheckMethod(verb, "DELETE") then NotAllowed
    else if id < 0 then Response(400, Message("message", "Error. Invalid id"))
    else
      match removed
      case Raised(f) => InternalError(f)
      case Returned(None) => NotFound
      case Returned(Some(_)) => Deleted
  }

  /** `GET /api/technology/list/<group>` as written. Its second check
      compares the builtin function `id`, not a parameter, with 0. That
      comparison raises `TypeError` outside the `try` block, so every
      request with the right method ends in the framework's 500 page and
      the service is never called, whatever the group. */
  function GetTechnologiesByGroup(verb: string, group: string): (resp: Response)
    ensures !Utilities.CheckMethod(verb, "GET") ==> resp == NotAllowed
    ensures Utilities.CheckMethod(verb, "GET") ==> resp == Response(500, ServerErrorPage)
    ensures resp.status != 200
  {
    if !Utilities.CheckMethod(verb, "GET") then NotAllowed
    else Response(500, ServerErrorPage)
  }

  /** `json(obj)` applied to a list of rows: an empty list is falsy and
      gives `{}`; any other list has no `__dict__` to read. */
  function JsonOfList(items: seq<Technology>): (r: Outcome<map<string, Value>>)
    ensures r.Returned? <==> items == []
    ensures r.Returned? ==> r.value == map[]
    ensures r.Raised? ==> r.fault == AttributeError("list", "__dict__")
  {
    if items == [] then Returned(map[]) else Raised(AttributeError("list", "__dict__"))
  }

  /** The `try` block of the group handler as written, given what the
      service returned or raised: `json` is applied to the whole list. */
  function GroupTryBlock(found: Outcome<Option<seq<Technology>>>): (resp: Response)
    ensures found.Raised? ==> resp == InternalError(found.fault)
    ensures found.Returned? && (found.value.None? || found.value.value == []) ==> resp == GroupNotFound
    ensures found.Returned? && found.value.Some? && found.value.value != [] ==>
              resp == InternalError(AttributeError("list", "__dict__"))
  {
    match found
    case Raised(f) => InternalError(f)
    case Returned(rows) =>
      if rows.None? || rows.value == [] then GroupNotFound
      else
        match JsonOfList(rows.value)
        case Returned(fields) => Response(200, Record(fields))
        case Raised(f) => InternalError(f)
  }

  /** Even with the guard removed, the `try` block never lists a group: a
      group with members answers 500, an empty one 404. */
  lemma GroupTryBlockNeverLists(rows: map<int, Technology>, group: string)
    ensures GroupTryBlock(Returned(GroupQuery(rows, group))).status != 200
    ensures GroupTryBlock(Returned(GroupQuery(rows, group))).status == 500 <==> exists k :: k in rows && rows[k].group == group
  {
    var found := GroupQuery(rows, group);
    if found.Some? {
      var k :| k in rows && rows[k].group == group;
      assert rows[k] in found.value;
    }
  }

  /** The group handler as evidently intended: no id check, one JSON record
      per technology of the group, and a raising service call answers 500. */
  function GetTechnologiesByGroupFixed(verb: string, found: Outcome<Option<seq<Technology>>>): (resp: Response)
    ensures !Utilities.CheckMethod(verb, "GET") ==> resp == NotAllowed
    ensures Utilities.CheckMethod(verb, "GET") && found.Raised? ==> resp == InternalError(found.fault)
    ensures Utilities.CheckMethod(verb, "GET") && found.Returned? && (found.value.None? || found.value.value == []) ==>
              resp == GroupNotFound
    ensures resp.status == 200 <==>
              Utilities.CheckMethod(verb, "GET") && found.Returned? && found.value.Some? && found.value.value != []
    ensures resp.status == 200 ==>
              resp.body.Records? && |resp.body.items| == |found.value.value| &&
              forall i :: 0 <= i < |found.value.value| ==> resp.body.items[i] == TechnologyJson(found.value.value[i])
  {
    if !Utilities.CheckMethod(verb, "GET") then NotAllowed
    else
      match found
      case Raised(f) => InternalError(f)
      case Returned(rows) =>
        if rows.None? || rows.value == [] then GroupNotFound
        else Response(200, Records(seq(|rows.value|, i requires 0 <= i < |rows.value| => TechnologyJson(rows.value[i]))))
  }

  /** Over the group query, the intended handler answers 200 exactly when
      the group has members, and then lists the record of every member and
      of nothing else. */
  lemma GroupAnswersExactlyTheGroup(rows: map<int, Technology>, group: string, resp: Response)
    requires resp == GetTechnologiesByGroupFixed("GET", Returned(GroupQuery(rows, group)))
    ensures resp.status == 200 <==> exists k :: k in rows && rows[k].group == group
    ensures resp.status != 200 ==> resp == GroupNotFound
    ensures resp.status == 200 ==>
              forall k :: k in rows && rows[k].group == group ==> TechnologyJson(rows[k]) in resp.body.items
    ensures resp.status == 200 ==>
              forall i :: 0 <= i < |resp.body.items| ==>
                exists k :: k in rows && rows[k].group == group && resp.body.items[i] == TechnologyJson(rows[k])
  {
    var found := GroupQuery(rows, group);
    assert Utilities.CheckMethod("GET", "GET");
    if found.Some? {
      var k0 :| k0 in rows && rows[k0].group == group;
      assert rows[k0] in found.value;
      var members := found.value;
      assert forall i :: 0 <= i < |members| ==> resp.body.items[i] == TechnologyJson(members[i]);
      forall k | k in rows && rows[k].group == group
        ensures TechnologyJson(rows[k]) in resp.body.items
      {
        var t := rows[k];
        assert t in members;
        Table.MappedHoldsImage(members, resp.body.items, TechnologyJson, t);
      }
      forall i | 0 <= i < |resp.body.items|
        ensures exists k :: k in rows && rows[k].group == group && resp.body.items[i] == TechnologyJson(rows[k])
      {
        assert members[i] in members;
        var k :| k in rows && rows[k] == members[i];
        assert rows[k].group == group;
      }
    }
  }

  /** The handler's field check covers every key the service reads, so an
      accepted form never makes the service raise `KeyError`. */
  lemma AcceptedFormRaisesNoKeyError(verb: string, expected: string, data: Form, found: bool, storeError: Option<string>)
    requires FormAccepted(verb, expected, data, RequiredFields)
    ensures CreateFault(data, storeError) == if storeError.Some? then Some(DatabaseError(storeError.value)) else None
    ensures found ==> UpdateFault(data, found, storeError) == CreateFault(data, storeError)
    ensures !found ==> UpdateFault(data, found, storeError) == Some(AttributeError("NoneType", "label"))
  {
    assert HasTechnologyKeys(data);
    CompleteFormFailsOnlyInStore(data, found, storeError);
  }

  /** Whatever the store does, an accepted update of a missing row answers
      500 with the `NoneType` error, where the fetch handler answers 404. */
  lemma UpdateOfMissingTechnologyIs500(verb: string, data: Form, storeError: Option<string>)
    requires FormAccepted(verb, "PUT", data, RequiredFields)
    ensures UpdateTechnologyById(verb, data, Raised(UpdateFault(data, false, storeError).value)) ==
              InternalError(AttributeError("NoneType", "label"))
    ensures GetTechnologyById("GET", 0, Returned(None)) == NotFound
  {
    AcceptedFormRaisesNoKeyError(verb, "PUT", data, false, storeError);
  }

  /** The listing answer holds one record per stored technology, and the record
      of every stored technology. */
  lemma ListAnswersEveryTechnology(technologies: map<int, Technology>, resp: Response)
    requires technologies != map[] && resp == GetAllTechnologies("GET", Returned(Some(Table.Listing(technologies))))
    ensures resp.status == 200 && resp.body.Records? && |resp.body.items| == |technologies|
    ensures forall k :: k in technologies ==> TechnologyJson(technologies[k]) in resp.body.items
  {
    var rows := Table.Listing(technologies);
    assert |rows| == |technologies| && |technologies| > 0;
    assert Utilities.CheckMethod("GET", "GET");
    Table.ListingHoldsEveryRow(technologies);
    assert forall i :: 0 <= i < |rows| ==> resp.body.items[i] == TechnologyJson(rows[i]);
    forall k | k in technologies
      ensures TechnologyJson(technologies[k]) in resp.body.items
    {
      var p := technologies[k];
      assert p in rows;
      Table.MappedHoldsImage(rows, resp.body.items, TechnologyJson, p);
    }
  }

  /** A complete form. */
  function SampleForm(): (data: Form)
    ensures |data| > 0 && forall f :: f in RequiredFields ==> f in data
  {
    var data := map["label" := "Dafny", "img" := "dafny.png", "group" := "languages", "mode" := "light"];
    assert "label" in data;
    data
  }

  /** Updating an id that was never created answers 500, not 404. */
  method UpdateOfUnknownTechnology() returns (resp: Response)
    ensures resp == InternalError(AttributeError("NoneType", "label"))
    ensures resp.status == 500
  {
    var table := new TechnologyTable();
    var data := SampleForm();
    var updated := table.UpdateTechnologyById(data, 7, None, None);
    resp := UpdateTechnologyById("PUT", data, updated);
  }

  /** The same request through the checked service call answers 404. */
  method UpdateOfUnknownTechnologyChecked() returns (resp: Response)
    ensures resp == NotFound
  {
    var table := new TechnologyTable();
    var data := SampleForm();
    var updated := table.UpdateTechnologyByIdChecked(data, 7, None, None);
    resp := UpdateTechnologyByIdChecked("PUT", data, updated);
  }

  /** Created over HTTP, read back over HTTP: the record is the form's
      fields under the id the create call answered with. */
  method CreateThenFetch(table: TechnologyTable, data: Form) returns (created: Response, fetched: Response)
    requires table.Valid() && FormAccepted("POST", "POST", data, RequiredFields)
    modifies table
    ensures created.status == 201 && created.body.CreatedId? && created.body.id >= 1
    ensures fetched == Response(200, Record(TechnologyJson(TechnologyFromForm(created.body.id, data))))
  {
    AcceptedFormRaisesNoKeyError("POST", "POST", data, false, None);
    var technology := table.NewTechnology(data, None);
    created := NewTechnology("POST", data, Returned(Some(technology.value)));
    var found := table.GetTechnologyById(technology.value.id, None);
    fetched := GetTechnologyById("GET", technology.value.id, found);
  }

  /** Deleted over HTTP, the record is gone: fetching it answers 404 and
      deleting it again answers 404 too. */
  method DeleteThenFetch(table: TechnologyTable, id: int) returns (deleted: Response, fetched: Response, again: Response)
    requires table.Valid() && id >= 0 && id in table.technologies
    modifies table
    ensures deleted == Deleted && fetched == NotFound && again == NotFound
    ensures table.technologies == old(table.technologies) - {id}
  {
    var removed := table.DeleteTechnologyById(id, None, None);
    deleted := DeleteTechnologyById("DELETE", id, removed);
    var found := table.GetTechnologyById(id, None);
    fetched := GetTechnologyById("GET", id, found);
    removed := table.DeleteTechnologyById(id, None, None);
    again := DeleteTechnologyById("DELETE", id, removed);
  }

  /** A failing lookup is answered alike by the fetch and the delete: the
      store's error as a 500, whether or not the row exists. */
  method LookupFailureIs500(table: TechnologyTable, id: int, error: string) returns (fetched: Response, deleted: Response)
    requires table.Valid() && id >= 0
    modifies table
    ensures fetched == InternalError(DatabaseError(error)) && deleted == fetched
    ensures table.technologies == old(table.technologies)
  {
    var found := table.GetTechnologyById(id, Some(error));
    fetched := GetTechnologyById("GET", id, found);
    var removed := table.DeleteTechnologyById(id, Some(error), None);
    deleted := DeleteTechnologyById("DELETE", id, removed);
  }
}
