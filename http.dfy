/**
 * What the route handlers share: the response they build, the list of
 * required fields a form lacks and the message that names them, and the
 * 500 response for an exception a handler catches.
 */
module Http {
  import opened Runtime
  import opened Utilities

  /** The JSON body of a response. */
  datatype Body =
    | Message(key: string, text: string)              // jsonify(message=...) or jsonify(error=...)
    | MessageWithId(key: string, text: string, id: int)
    | CreatedId(id: int)                              // jsonify(id=row.id)
    | Record(fields: map<string, Value>)              // jsonify(json(row))
    | Records(items: seq<map<string, Value>>)         // jsonify([json(row) for row in rows])
    | ServerErrorPage                                 // the framework's page for an uncaught exception

  datatype Response = Response(status: int, body: Body)

  // ---------------------------------------------------------------------
  // Missing fields
  // ---------------------------------------------------------------------

  /** `[field for field in required if field not in data]`. */
  function MissingFields(required: seq<string>, data: Form): (missing: seq<string>)
    ensures |missing| <= |required|
    ensures forall f :: f in missing ==> f in required && f !in data
    ensures forall f :: f in required && f !in data ==> f in missing
    decreases |required|
  {
    if required == [] then []
    else
      var rest := MissingFields(required[1..], data);
      assert forall f :: f in required ==> f == required[0] || f in required[1..];
      if required[0] in data then rest else [required[0]] + rest
  }

  /** `xs` is `ys` with some elements deleted, the rest kept in order. */
  predicate IsSubsequence(xs: seq<string>, ys: seq<string>)
    decreases |ys|
  {
    if xs == [] then true
    else if ys == [] then false
    else if xs[0] == ys[0] then IsSubsequence(xs[1..], ys[1..])
    else IsSubsequence(xs, ys[1..])
  }

  /** The missing fields keep the order in which they are declared. */
  lemma {:induction false} MissingFieldsInOrder(required: seq<string>, data: Form)
    ensures IsSubsequence(MissingFields(required, data), required)
    decreases |required|
  {
    if required != [] {
      var rest := MissingFields(required[1..], data);
      MissingFieldsInOrder(required[1..], data);
      if required[0] in data && rest != [] {
        assert rest[0] in rest;
      }
    }
  }

  /** The service reads form keys one by one, and the first it lacks is the
      first field the handler's check reports. */
  lemma {:induction false} FirstMissingIsFirstReported(keys: seq<string>, data: Form)
    ensures FirstMissing(keys, data) ==
              if MissingFields(keys, data) == [] then None else Some(MissingFields(keys, data)[0])
    decreases |keys|
  {
    if keys != [] {
      FirstMissingIsFirstReported(keys[1..], data);
    }
  }

  // ---------------------------------------------------------------------
  // The message that names them
  // ---------------------------------------------------------------------

  /** `", ".join(names)`. */
  function JoinNames(names: seq<string>): string
    decreases |names|
  {
    if names == [] then ""
    else if |names| == 1 then names[0]
    else names[0] + ", " + JoinNames(names[1..])
  }

  /** Reads a joined list back: splits at every ", ". */
  function SplitNames(s: string): (names: seq<string>)
    ensures |names| >= 1
    decreases |s|
  {
    if |s| < 2 then [s]
    else if s[..2] == ", " then [""] + SplitNames(s[2..])
    else
      var rest := SplitNames(s[1..]);
      [[s[0]] + rest[0]] + rest[1..]
  }

  predicate NoComma(name: string)
  {
    forall i :: 0 <= i < |name| ==> name[i] != ','
  }

  lemma {:induction false} SplitSingle(name: string)
    requires NoComma(name)
    ensures SplitNames(name) == [name]
    decreases |name|
  {
    if |name| >= 2 {
      SplitSingle(name[1..]);
      assert [name[0]] + name[1..] == name;
    }
  }

  lemma {:induction false} SplitFirst(name: string, tail: string)
    requires NoComma(name)
    ensures SplitNames(name + ", " + tail) == [name] + SplitNames(tail)
    decreases |name|
  {
    var s := name + ", " + tail;
    if name == [] {
      assert s[..2] == ", " && s[2..] == tail;
    } else {
      assert s[0] == name[0] && name[0] != ',';
      assert s[..2] != ", ";
      assert s[1..] == name[1..] + ", " + tail;
      SplitFirst(name[1..], tail);
      assert [s[0]] + name[1..] == name;
    }
  }

  /** The joined list reads back as the list it was made from, when no name
      holds a comma. */
  lemma {:induction false} SplitJoin(names: seq<string>)
    requires |names| >= 1
    requires forall i :: 0 <= i < |names| ==> NoComma(names[i])
    ensures SplitNames(JoinNames(names)) == names
    decreases |names|
  {
    if |names| == 1 {
      SplitSingle(names[0]);
    } else {
      SplitFirst(names[0], JoinNames(names[1..]));
      SplitJoin(names[1..]);
    }
  }

  const MissingFieldsPrefix: string := "Error. Missing required fields: "

  /** The 400 response every create and update handler gives a form that
      lacks required fields: the missing names, in order, after a fixed
      prefix. */
  function MissingFieldsResponse(missing: seq<string>): Response
  {
    Response(400, Message("message", MissingFieldsPrefix + JoinNames(missing)))
  }

  /** The message names exactly the missing fields, in declaration order. */
  lemma MissingFieldsMessageNamesThem(required: seq<string>, data: Form)
    requires forall i :: 0 <= i < |required| ==> NoComma(required[i])
    requires MissingFields(required, data) != []
    ensures var text := MissingFieldsResponse(MissingFields(required, data)).body.text;
      text[..|MissingFieldsPrefix|] == MissingFieldsPrefix &&
      SplitNames(text[|MissingFieldsPrefix|..]) == MissingFields(required, data)
  {
    var missing := MissingFields(required, data);
    forall i | 0 <= i < |missing|
      ensures NoComma(missing[i])
    {
      assert missing[i] in required;
    }
    SplitJoin(missing);
    var text := MissingFieldsPrefix + JoinNames(missing);
    assert text[|MissingFieldsPrefix|..] == JoinNames(missing);
  }

  // ---------------------------------------------------------------------
  // The guard chain of the create and update handlers
  // ---------------------------------------------------------------------

  /** A create or update request gets past the handler's checks: the right
      method, a non-empty form, and every required field present. */
  predicate FormAccepted(verb: string, expected: string, data: Form, required: seq<string>)
  {
    CheckMethod(verb, expected) && |data| > 0 && forall f :: f in required ==> f in data
  }

  /** The checks a create or update handler runs before calling its
      service, in order: the method, a non-empty form, the required
      fields. `None` lets the call through. */
  function FormGuard(verb: string, expected: string, data: Form, required: seq<string>,
                     notAllowed: Response, noData: Response): (rejection: Option<Response>)
    ensures rejection.None? <==> FormAccepted(verb, expected, data, required)
    ensures !CheckMethod(verb, expected) ==> rejection == Some(notAllowed)
    ensures CheckMethod(verb, expected) && |data| == 0 ==> rejection == Some(noData)
    ensures CheckMethod(verb, expected) && |data| > 0 && !FormAccepted(verb, expected, data, required) ==>
              MissingFields(required, data) != [] &&
              rejection == Some(MissingFieldsResponse(MissingFields(required, data)))
  {
    if !CheckMethod(verb, expected) then Some(notAllowed)
    else if |data| == 0 then Some(noData)
    else
      var missing := MissingFields(required, data);
      if missing != [] then
        assert missing[0] in missing;
        Some(MissingFieldsResponse(missing))
      else
        assert forall f :: f in required ==> f in data;
        None
  }

  /** `jsonify(message=f'Internal error. {str(e)}'), 500`. */
  function InternalError(f: Fault): (r: Response)
    ensures r.status == 500 && r.body.Message? && r.body.key == "message"
  {
    Response(500, Message("message", "Internal error. " + ErrorText(f)))
  }
}
