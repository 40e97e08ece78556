/**
 * `PostService`: create, overwrite, list, fetch and delete rows of the
 * `posts` table. Each mutation stages its change in the session and
 * either commits it or, when anything raises, rolls it back and re-raises,
 * so a failed call leaves the table as it was.
 */
module PostService {
  import opened Runtime
  import opened Models
  import Table

  /** The form keys `new_post` and `update_post_by_id` read, in the order
      they read them. `mode` is read although `posts` has no such column. */
  const PostKeys: seq<string> := ["label", "text", "img", "link", "date", "mode"]

  predicate HasPostKeys(data: Form)
  {
    forall k :: k in PostKeys ==> k in data
  }

  /** The row `new_post` builds for a complete form. */
  function PostFromForm(id: int, data: Form): (p: Post)
    requires HasPostKeys(data)
    ensures p.id == id
  {
    Post(id, data["label"], data["text"], data["img"], data["date"], data["link"])
  }

  /** The row `update_post_by_id` leaves behind: every column but the key
      replaced from the form. */
  function Overwrite(p: Post, data: Form): (q: Post)
    requires HasPostKeys(data)
    ensures q == PostFromForm(p.id, data)
  {
    p.(labelText := data["label"], text := data["text"], img := data["img"], link := data["link"],
       date := data["date"])
  }

  /** What `new_post` raises: the `KeyError` of the first absent key, else
      the error of the ORM or the database, if there is one. */
  function CreateFault(data: Form, storeError: Option<string>): Option<Fault>
  {
    match FirstMissing(PostKeys, data)
    case Some(key) => Some(KeyError(key))
    case None => if storeError.Some? then Some(DatabaseError(storeError.value)) else None
  }

  /** What `update_post_by_id` raises. `data['label']` is evaluated before
      the looked-up row is touched, so a form without `label` raises
      `KeyError` even for a missing row; otherwise a missing row raises
      `AttributeError` on `None`. */
  function UpdateFault(data: Form, found: bool, storeError: Option<string>): Option<Fault>
  {
    if "label" !in data then Some(KeyError("label"))
    else if !found then Some(AttributeError("NoneType", "label"))
    else CreateFault(data, storeError)
  }

  /** A form with every key can fail only in the store. */
  lemma CompleteFormFailsOnlyInStore(data: Form, found: bool, storeError: Option<string>)
    requires HasPostKeys(data)
    ensures CreateFault(data, storeError) == if storeError.Some? then Some(DatabaseError(storeError.value)) else None
    ensures found ==> UpdateFault(data, found, storeError) == CreateFault(data, storeError)
  {
  }

  /** An update of a missing row never succeeds: with `label` present it
      faults on `None`. */
  lemma UpdateOfMissingRowRaises(data: Form, storeError: Option<string>)
    ensures UpdateFault(data, false, storeError).Some?
    ensures "label" in data ==> UpdateFault(data, false, storeError) == Some(AttributeError("NoneType", "label"))
  {
  }

  /** Every stored row sits under its own id. */
  predicate IdsMatchKeys(rows: map<int, Post>)
  {
    forall k :: k in rows ==> rows[k].id == k
  }

  class PostTable {
    var posts: map<int, Post>

    ghost predicate Valid()
      reads this
    {
      IdsMatchKeys(posts) && Table.PositiveKeys(posts)
    }

    constructor ()
      ensures Valid() && posts == map[]
    {
      posts := map[];
    }

    /** `new_post(data)`: on success exactly one new row, under an id not
        used before, built from the form; on failure no change. */
    method NewPost(data: Form, storeError: Option<string>) returns (r: Outcome<Post>)
      requires Valid()
      modifies this
      ensures Valid()
      ensures r.Raised? <==> CreateFault(data, storeError).Some?
      ensures r.Raised? ==> r.fault == CreateFault(data, storeError).value && posts == old(posts)
      ensures r.Returned? ==> HasPostKeys(data) && r.value.id >= 1 && r.value.id !in old(posts)
      ensures r.Returned? ==> r.value == PostFromForm(r.value.id, data) && posts == old(posts)[r.value.id := r.value]
    {
      // The keyword arguments are evaluated in order before the row exists.
      var missing := FirstMissing(PostKeys, data);
      if missing.Some? {
        return Raised(KeyError(missing.value));
      }
      var post := PostFromForm(Table.NextId(posts.Keys), data);
      var staged := posts[post.id := post];
      if storeError.Some? {
        // Rolled back: the staged row is discarded.
        return Raised(DatabaseError(storeError.value));
      }
      posts := staged;
      return Returned(post);
    }

    /** `update_post_by_id(data, id)`: loads the row, assigns its fields one by
        one and commits; anything raised rolls the session back. A failing
        lookup (`lookupError`) raises before any field is read, a failing
        commit (`storeError`) after every field is assigned. */
    method UpdatePostById(data: Form, id: int, lookupError: Option<string>, storeError: Option<string>) returns (r: Outcome<()>)
      requires Valid()
      modifies this
      ensures Valid()
      ensures lookupError.Some? ==> r == Raised(DatabaseError(lookupError.value)) && posts == old(posts)
      ensures lookupError.None? ==> (r.Raised? <==> UpdateFault(data, id in old(posts), storeError).Some?)
      ensures lookupError.None? && r.Raised? ==> r.fault == UpdateFault(data, id in old(posts), storeError).value && posts == old(posts)
      ensures r.Returned? ==> id in old(posts) && HasPostKeys(data)
      ensures r.Returned? ==> posts == old(posts)[id := Overwrite(old(posts)[id], data)]
    {
      if lookupError.Some? {
        // The lookup itself fails: rolled back and re-raised.
        return Raised(DatabaseError(lookupError.value));
      }
      var found := if id in posts then Some(posts[id]) else None;
      if "label" !in data {
        return Raised(KeyError("label"));
      }
      if found.None? {
        return Raised(AttributeError("NoneType", "label"));
      }
      var row := found.value.(labelText := data["label"]);
      if "text" !in data {
        FirstMissingAt(PostKeys, data, 1);
        return Raised(KeyError("text"));
      }
      row := row.(text := data["text"]);
      if "img" !in data {
        FirstMissingAt(PostKeys, data, 2);
        return Raised(KeyError("img"));
      }
      row := row.(img := data["img"]);
      if "link" !in data {
        FirstMissingAt(PostKeys, data, 3);
        return Raised(KeyError("link"));
      }
      row := row.(link := data["link"]);
      if "date" !in data {
        FirstMissingAt(PostKeys, data, 4);
        return Raised(KeyError("date"));
      }
      row := row.(date := data["date"]);
      if "mode" !in data {
        FirstMissingAt(PostKeys, data, 5);
        return Raised(KeyError("mode"));
      }
      // `post.mode = ...` sets a plain attribute that is not a column.
      if storeError.Some? {
        // Rolled back: the edited row is discarded.
        return Raised(DatabaseError(storeError.value));
      }
      posts := posts[id := row];
      return Returned(());
    }

    /** The update with the existence check `update_post_by_id` lacks:
        a missing row is reported as `false`, with nothing read from the form
        and nothing changed; a failing lookup and an existing row behave as
        before. */
    method UpdatePostByIdChecked(data: Form, id: int, lookupError: Option<string>, storeError: Option<string>) returns (r: Outcome<bool>)
      requires Valid()
      modifies this
      ensures Valid()
      ensures lookupError.Some? ==> r == Raised(DatabaseError(lookupError.value)) && posts == old(posts)
      ensures lookupError.None? && id !in old(posts) ==> r == Returned(false) && posts == old(posts)
      ensures lookupError.None? && id in old(posts) ==> (r.Raised? <==> UpdateFault(data, true, storeError).Some?)
      ensures lookupError.None? && id in old(posts) && r.Raised? ==> r.fault == UpdateFault(data, true, storeError).value && posts == old(posts)
      ensures lookupError.None? && id in old(posts) && r.Returned? ==>
                r.value && HasPostKeys(data) && posts == old(posts)[id := Overwrite(old(posts)[id], data)]
    {
      if lookupError.Some? {
        return Raised(DatabaseError(lookupError.value));
      }
      if id !in posts {
        return Returned(false);
      }
      var done := UpdatePostById(data, id, None, storeError);
      match done
      case Raised(f) => return Raised(f);
      case Returned(_) => return Returned(true);
    }

    /** `get_all_posts()`: a failing read re-raises; otherwise the scan. */
    method GetAllPosts(storeError: Option<string>) returns (r: Outcome<Option<seq<Post>>>)
      requires Valid()
      ensures r.Raised? <==> storeError.Some?
      ensures r.Raised? ==> r.fault == DatabaseError(storeError.value)
      ensures r.Returned? ==> r.value == Table.QueryAll(posts)
    {
      if storeError.Some? {
        return Raised(DatabaseError(storeError.value));
      }
      var all := Table.Listing(posts);
      if |all| == 0 {
        return Returned(None);
      }
      return Returned(Some(all));
    }

    /** `get_post_by_id(id)`: a failing read re-raises; otherwise the
        stored row or `None`. Nothing changes. */
    method GetPostById(id: int, storeError: Option<string>) returns (r: Outcome<Option<Post>>)
      requires Valid()
      ensures r.Raised? <==> storeError.Some?
      ensures r.Raised? ==> r.fault == DatabaseError(storeError.value)
      ensures r.Returned? ==> (r.value.None? <==> id !in posts)
      ensures r.Returned? && r.value.Some? ==> r.value.value == posts[id] && r.value.value.id == id
    {
      if storeError.Some? {
        return Raised(DatabaseError(storeError.value));
      }
      if id !in posts {
        return Returned(None);
      }
      return Returned(Some(posts[id]));
    }

    /** `delete_post_by_id(id)`: a failing lookup (`lookupError`) re-raises;
        `None` for a missing row; otherwise removes exactly that row and
        returns it, unless the commit (`storeError`) fails. */
    method DeletePostById(id: int, lookupError: Option<string>, storeError: Option<string>) returns (r: Outcome<Option<Post>>)
      requires Valid()
      modifies this
      ensures Valid()
      ensures lookupError.Some? ==> r == Raised(DatabaseError(lookupError.value)) && posts == old(posts)
      ensures lookupError.None? && id !in old(posts) ==> r == Returned(None) && posts == old(posts)
      ensures lookupError.None? && id in old(posts) && storeError.Some? ==> r == Raised(DatabaseError(storeError.value)) && posts == old(posts)
      ensures lookupError.None? && id in old(posts) && storeError.None? ==> r == Returned(Some(old(posts)[id])) && posts == old(posts) - {id}
    {
      if lookupError.Some? {
        return Raised(DatabaseError(lookupError.value));
      }
      if id !in posts {
        return Returned(None);
      }
      var removed := posts[id];
      var staged := posts - {id};
      if storeError.Some? {
        return Raised(DatabaseError(storeError.value));
      }
      posts := staged;
      return Returned(Some(removed));
    }
  }

  /** A created post reads back as built from the form. */
  method CreateThenGet(table: PostTable, data: Form) returns (created: Outcome<Post>, fetched: Outcome<Option<Post>>)
    requires table.Valid() && HasPostKeys(data)
    modifies table
    ensures created.Returned? && fetched == Returned(Some(created.value))
    ensures created.value == PostFromForm(created.value.id, data)
  {
    CompleteFormFailsOnlyInStore(data, false, None);
    created := table.NewPost(data, None);
    fetched := table.GetPostById(created.value.id, None);
  }

  /** An update is a full overwrite: the row reads back as the form. */
  method UpdateThenGet(table: PostTable, data: Form, id: int) returns (updated: Outcome<()>, fetched: Outcome<Option<Post>>)
    requires table.Valid() && HasPostKeys(data) && id in table.posts
    modifies table
    ensures updated.Returned? && fetched == Returned(Some(PostFromForm(id, data)))
  {
    CompleteFormFailsOnlyInStore(data, true, None);
    updated := table.UpdatePostById(data, id, None, None);
    fetched := table.GetPostById(id, None);
  }

  /** Deleting twice: the first call returns the row, the second `None`. */
  method DeleteTwice(table: PostTable, id: int) returns (first: Outcome<Option<Post>>, second: Outcome<Option<Post>>)
    requires table.Valid() && id in table.posts
    modifies table
    ensures first == Returned(Some(old(table.posts)[id])) && second == Returned(None)
    ensures table.posts == old(table.posts) - {id}
  {
    first := table.DeletePostById(id, None, None);
    second := table.DeletePostById(id, None, None);
  }
}
