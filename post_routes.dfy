/**
 * The `/api/post/...` handlers. Each one checks the request method, then
 * its input, then calls `PostService` inside a `try` block whose
 * exceptions become a 500 response naming the error. A handler is a
 * function of the parsed request and of what the service call returned or
 * raised; that outcome is consulted only once the checks pass.
 */
module PostRoutes {
  import opened Runtime
  import opened Models
  import opened Http
  import opened PostService
  import Utilities
  import Table

  /** The fields the create and update handlers insist on, in this order. */
  const RequiredFields: seq<string> := ["label", "text", "img", "link", "date", "mode"]

  const NotAllowed: Response := Response(405, Message("message", "Error. Method not allowed"))
  const NoData: Response := Response(400, Message("message", "Error. No data provided"))
  const CreateFailed: Response := Response(500, Message("message", "Error. Failed to create post"))
  const Updated: Response := Response(200, Message("message", "Record was successfully updated"))
  const NotListed: Response := Response(404, Message("message", "Error. Posts were not found"))
  const NotFound: Response := Response(404, Message("message", "Error. Post with such id does not exist"))
  const NotDeleted: Response := Response(404, Message("message", "post with such id does not exist"))
  const Deleted: Response := Response(200, Message("message", "Record was successfully deleted"))

  /** `POST /api/post/new`. `Returned(None)` stands for a falsy service
      result. */
  function NewPost(verb: string, data: Form, created: Outcome<Option<Post>>): (resp: Response)
    ensures !Utilities.CheckMethod(verb, "POST") ==> resp == NotAllowed
    ensures Utilities.CheckMethod(verb, "POST") && |data| == 0 ==> resp == NoData
    ensures Utilities.CheckMethod(verb, "POST") && |data| > 0 && !FormAccepted(verb, "POST", data, RequiredFields) ==>
              resp == MissingFieldsResponse(MissingFields(RequiredFields, data))
    ensures resp.status == 201 <==> FormAccepted(verb, "POST", data, RequiredFields) && created.Returned? && created.value.Some?
    ensures resp.status == 201 ==> resp.body == CreatedId(created.value.value.id)
    ensures FormAccepted(verb, "POST", data, RequiredFields) && created.Raised? ==> resp == InternalError(created.fault)
    ensures FormAccepted(verb, "POST", data, RequiredFields) && created == Returned(None) ==> resp == CreateFailed
  {
    match FormGuard(verb, "POST", data, RequiredFields, NotAllowed, NoData)
    case Some(rejection) => rejection
    case None =>
      match created
      case Raised(f) => InternalError(f)
      case Returned(None) => CreateFailed
      case Returned(Some(post)) => Response(201, CreatedId(post.id))
  }

  /** `PUT /api/post/update/<id>`: 200 when the service returns, 500 when it
      raises, never 404 — a missing row shows up only as the service's
      `AttributeError`. */
  function UpdatePostById(verb: string, data: Form, updated: Outcome<()>): (resp: Response)
    ensures !Utilities.CheckMethod(verb, "PUT") ==> resp == NotAllowed
    ensures Utilities.CheckMethod(verb, "PUT") && |data| == 0 ==> resp == NoData
    ensures Utilities.CheckMethod(verb, "PUT") && |data| > 0 && !FormAccepted(verb, "PUT", data, RequiredFields) ==>
              resp == MissingFieldsResponse(MissingFields(RequiredFields, data))
    ensures FormAccepted(verb, "PUT", data, RequiredFields) ==> (resp == Updated <==> updated.Returned?)
    ensures FormAccepted(verb, "PUT", data, RequiredFields) && updated.Raised? ==> resp == InternalError(updated.fault)
    ensures resp.status != 404
  {
    match FormGuard(verb, "PUT", data, RequiredFields, NotAllowed, NoData)
    case Some(rejection) => rejection
    case None =>
      match updated
      case Raised(f) => InternalError(f)
      case Returned(_) => Updated
  }

  /** The update handler over the checked service call: a missing row
      (`Returned(false)`) gets the fetch handler's 404. */
  function UpdatePostByIdChecked(verb: string, data: Form, updated: Outcome<bool>): (resp: Response)
    ensures !FormAccepted(verb, "PUT", data, RequiredFields) ==> resp == UpdatePostById(verb, data, Returned(()))
    ensures FormAccepted(verb, "PUT", data, RequiredFields) ==> (resp == Updated <==> updated == Returned(true))
    ensures FormAccepted(verb, "PUT", data, RequiredFields) ==> (resp == NotFound <==> updated == Returned(false))
    ensures FormAccepted(verb, "PUT", data, RequiredFields) && updated.Raised? ==> resp == InternalError(updated.fault)
  {
    match FormGuard(verb, "PUT", data, RequiredFields, NotAllowed, NoData)
    case Some(rejection) => rejection
    case None =>
      match updated
      case Raised(f) => InternalError(f)
      case Returned(found) => if found then Updated else NotFound
  }

  /** `GET /api/post/list`. An empty list is falsy like `None`; a
      raising service call answers 500. */
  function GetAllPosts(verb: string, found: Outcome<Option<seq<Post>>>): (resp: Response)
    ensures !Utilities.CheckMethod(verb, "GET") ==> resp == NotAllowed
    ensures Utilities.CheckMethod(verb, "GET") && found.Raised? ==> resp == InternalError(found.fault)
    ensures Utilities.CheckMethod(verb, "GET") && found.Returned? && (found.value.None? || found.value.value == []) ==> resp == NotListed
    ensures resp.status == 200 <==> Utilities.CheckMethod(verb, "GET") && found.Returned? && found.value.Some? && found.value.value != []
    ensures resp.status == 200 ==>
              resp.body.Records? && |resp.body.items| == |found.value.value| &&
              forall i :: 0 <= i < |found.value.value| ==> resp.body.items[i] == PostJson(found.value.value[i])
  {
    if !Utilities.CheckMethod(verb, "GET") then NotAllowed
    else
      match found
      case Raised(f) => InternalError(f)
      case Returned(rows) =>
        if rows.None? || rows.value == [] then NotListed
        else Response(200, Records(seq(|rows.value|, i requires 0 <= i < |rows.value| => PostJson(rows.value[i]))))
  }

  /** `GET /api/post/<id>`: a negative id is refused before the lookup; a
      raising service call answers 500. */
  function GetPostById(verb: string, id: int, found: Outcome<Option<Post>>): (resp: Response)
    ensures !Utilities.CheckMethod(verb, "GET") ==> resp == NotAllowed
    ensures Utilities.CheckMethod(verb, "GET") && id < 0 ==> resp == Response(400, MessageWithId("message", "Error. Invalid id", id))
    ensures Utilities.CheckMethod(verb, "GET") && id >= 0 && found.Raised? ==> resp == InternalError(found.fault)
    ensures Utilities.CheckMethod(verb, "GET") && id >= 0 && found == Returned(None) ==> resp == NotFound
    ensures resp.status == 200 <==> Utilities.CheckMethod(verb, "GET") && id >= 0 && found.Returned? && found.value.Some?
    ensures resp.status == 200 ==> resp.body == Record(PostJson(found.value.value))
  {
    if !Utilities.CheckMethod(verb, "GET") then NotAllowed
    else if id < 0 then Response(400, MessageWithId("message", "Error. Invalid id", id))
    else
      match found
      case Raised(f) => InternalError(f)
      case Returned(None) => NotFound
      case Returned(Some(row)) => Response(200, Record(PostJson(row)))
  }

  /** `DELETE /api/post/delete/<id>`. */
  function DeletePostById(verb: string, id: int, removed: Outcome<Option<Post>>): (resp: Response)
    ensures !Utilities.CheckMethod(verb, "DELETE") ==> resp == NotAllowed
    ensures Utilities.CheckMethod(verb, "DELETE") && id < 0 ==> resp == Response(400, Message("message", "Error. Invalid id"))
    ensures Utilities.CheckMethod(verb, "DELETE") && id >= 0 ==>
              (removed.Raised? ==> resp == InternalError(removed.fault)) &&
              (removed == Returned(None) ==> resp == NotDeleted) &&
              (resp == Deleted <==> removed.Returned? && removed.value.Some?)
  {
    if !Utilities.CheckMethod(verb, "DELETE") then NotAllowed
    else if id < 0 then Response(400, Message("message", "Error. Invalid id"))
    else
      match removed
      case Raised(f) => InternalError(f)
      case Returned(None) => NotDeleted
      case Returned(Some(_)) => Deleted
  }

  /** The handler's field check covers every key the service reads, so an
      accepted form never makes the service raise `KeyError`. */
  lemma AcceptedFormRaisesNoKeyError(verb: string, expected: string, data: Form, found: bool, storeError: Option<string>)
    requires FormAccepted(verb, expected, data, RequiredFields)
    ensures CreateFault(data, storeError) == if storeError.Some? then Some(DatabaseError(storeError.value)) else None
    ensures found ==> UpdateFault(data, found, storeError) == CreateFault(data, storeError)
    ensures !found ==> UpdateFault(data, found, storeError) == Some(AttributeError("NoneType", "label"))
  {
    assert HasPostKeys(data);
    CompleteFormFailsOnlyInStore(data, found, storeError);
  }

  /** Whatever the store does, an accepted update of a missing row answers
      500 with the `NoneType` error, where the fetch handler answers 404. */
  lemma UpdateOfMissingPostIs500(verb: string, data: Form, storeError: Option<string>)
    requires FormAccepted(verb, "PUT", data, RequiredFields)
    ensures UpdatePostById(verb, data, Raised(UpdateFault(data, false, storeError).value)) ==
              InternalError(AttributeError("NoneType", "label"))
    ensures GetPostById("GET", 0, Returned(None)) == NotFound
  {
    AcceptedFormRaisesNoKeyError(verb, "PUT", data, false, storeError);
  }

  /** The listing answer holds one record per stored post, and the record
      of every stored post. */
  lemma ListAnswersEveryPost(posts: map<int, Post>, resp: Response)
    requires posts != map[] && resp == GetAllPosts("GET", Returned(Some(Table.Listing(posts))))
    ensures resp.status == 200 && resp.body.Records? && |resp.body.items| == |posts|
    ensures forall k :: k in posts ==> PostJson(posts[k]) in resp.body.items
  {
    var rows := Table.Listing(posts);
    assert |rows| == |posts| && |posts| > 0;
    assert Utilities.CheckMethod("GET", "GET");
    Table.ListingHoldsEveryRow(posts);
    assert forall i :: 0 <= i < |rows| ==> resp.body.items[i] == PostJson(rows[i]);
    forall k | k in posts
      ensures PostJson(posts[k]) in resp.body.items
    {
      var p := posts[k];
      assert p in rows;
      Table.MappedHoldsImage(rows, resp.body.items, PostJson, p);
    }
  }

  /** A complete form. */
  function SampleForm(): (data: Form)
    ensures |data| > 0 && forall f :: f in RequiredFields ==> f in data
  {
    var data := map["label" := "Hello", "text" := "First post", "img" := "a.png", "link" := "https://example.org",
                    "date" := "2024-01-01", "mode" := "light"];
    assert "label" in data;
    data
  }

  /** Updating an id that was never created answers 500, not 404. */
  method UpdateOfUnknownPost() returns (resp: Response)
    ensures resp == InternalError(AttributeError("NoneType", "label"))
    ensures resp.status == 500
  {
    var table := new PostTable();
    var data := SampleForm();
    var updated := table.UpdatePostById(data, 7, None, None);
    resp := UpdatePostById("PUT", data, updated);
  }

  /** The same request through the checked service call answers 404. */
  method UpdateOfUnknownPostChecked() returns (resp: Response)
    ensures resp == NotFound
  {
    var table := new PostTable();
    var data := SampleForm();
    var updated := table.UpdatePostByIdChecked(data, 7, None, None);
    resp := UpdatePostByIdChecked("PUT", data, updated);
  }

  /** Created over HTTP, read back over HTTP: the record is the form's
      fields under the id the create call answered with. */
  method CreateThenFetch(table: PostTable, data: Form) returns (created: Response, fetched: Response)
    requires table.Valid() && FormAccepted("POST", "POST", data, RequiredFields)
    modifies table
    ensures created.status == 201 && created.body.CreatedId? && created.body.id >= 1
    ensures fetched == Response(200, Record(PostJson(PostFromForm(created.body.id, data))))
  {
    AcceptedFormRaisesNoKeyError("POST", "POST", data, false, None);
    var post := table.NewPost(data, None);
    created := NewPost("POST", data, Returned(Some(post.value)));
    var found := table.GetPostById(post.value.id, None);
    fetched := GetPostById("GET", post.value.id, found);
  }

  /** Deleted over HTTP, the record is gone: fetching it answers 404 and
      deleting it again answers 404 too. */
  method DeleteThenFetch(table: PostTable, id: int) returns (deleted: Response, fetched: Response, again: Response)
    requires table.Valid() && id >= 0 && id in table.posts
    modifies table
    ensures deleted == Deleted && fetched == NotFound && again == NotDeleted
    ensures table.posts == old(table.posts) - {id}
  {
    var removed := table.DeletePostById(id, None, None);
    deleted := DeletePostById("DELETE", id, removed);
    var found := table.GetPostById(id, None);
    fetched := GetPostById("GET", id, found);
    removed := table.DeletePostById(id, None, None);
    again := DeletePostById("DELETE", id, removed);
  }

  /** A failing lookup is answered alike by the fetch and the delete: the
      store's error as a 500, whether or not the row exists. */
  method LookupFailureIs500(table: PostTable, id: int, error: string) returns (fetched: Response, deleted: Response)
    requires table.Valid() && id >= 0
    modifies table
    ensures fetched == InternalError(DatabaseError(error)) && deleted == fetched
    ensures table.posts == old(table.posts)
  {
    var found := table.GetPostById(id, Some(error));
    fetched := GetPostById("GET", id, found);
    var removed := table.DeletePostById(id, Some(error), None);
    deleted := DeletePostById("DELETE", id, removed);
  }
}
