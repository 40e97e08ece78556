/**
 * The few Python notions the services and handlers rely on: attribute
 * values, a request form, the exceptions a service call can raise and the
 * text `str(e)` gives for each.
 */
module Runtime {

  /** A submitted form (`request.form`): field name to its first value. */
  type Form = map<string, string>

  /** An attribute value of a loaded row: a column value or the ORM's
      internal bookkeeping object. */
  datatype Value = Int(i: int) | Str(s: string) | Internal

  /** The exceptions a service call raises:
      - KeyError: `data[key]` on a form without that key;
      - AttributeError: an attribute access on an object of type `typeName`
        that has no such attribute (an assignment to the `None` a lookup of
        a missing row returned, or `__dict__` of a list);
      - DatabaseError: anything the ORM or the database raises while
        constructing, adding, committing or deleting a row. */
  datatype Fault =
    | KeyError(key: string)
    | AttributeError(typeName: string, attribute: string)
    | DatabaseError(detail: string)

  /** A Python call either returns a value or raises. */
  datatype Outcome<T> = Returned(value: T) | Raised(fault: Fault)

  /** The text a handler's `str(e)` gives for each fault. For a `KeyError`
      this is Python's plain rendering of the key; a form lookup in the web
      framework raises a subclass whose text differs, but no handler ever
      shows it, because the field check runs first. For an `AttributeError`
      it is the text CPython 3.12 and earlier give for assigning an attribute
      of `None`; CPython 3.13 appends " and no __dict__ for setting new
      attributes", and no interpreter version is pinned. */
  function ErrorText(f: Fault): string
  {
    match f
    case KeyError(key) => "'" + key + "'"
    case AttributeError(typeName, attribute) => "'" + typeName + "' object has no attribute '" + attribute + "'"
    case DatabaseError(detail) => detail
  }

  /** The first of `keys` the form lacks, in order: the `KeyError` that
      evaluating `data[k]` for each `k` in turn raises. */
  function FirstMissing(keys: seq<string>, data: Form): (missing: Option<string>)
    ensures missing.None? <==> forall k :: k in keys ==> k in data
    ensures missing.Some? ==> missing.value in keys && missing.value !in data
  {
    if keys == [] then None
    else if keys[0] !in data then Some(keys[0])
    else
      assert forall k :: k in keys ==> k == keys[0] || k in keys[1..];
      FirstMissing(keys[1..], data)
  }

  /** The first absent key is the one at the first index whose key the form
      lacks. */
  lemma {:induction false} FirstMissingAt(keys: seq<string>, data: Form, i: nat)
    requires i < |keys| && keys[i] !in data
    requires forall j :: 0 <= j < i ==> keys[j] in data
    ensures FirstMissing(keys, data) == Some(keys[i])
  {
    if i > 0 {
      FirstMissingAt(keys[1..], data, i - 1);
    }
  }

  datatype Option<+T> = None | Some(value: T)
}
