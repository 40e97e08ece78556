/**
 * The three tables' rows, one datatype per column list, and the
 * `__dict__` a loaded row carries: the ORM's `_sa_instance_state` followed
 * by one entry per column.
 */
module Models {
  import opened Runtime
  import opened Utilities

  /** A row of `posts`. */
  datatype Post = Post(id: int, labelText: string, text: string, img: string, date: string, link: string)

  /** A row of `projects`; `stack` is free text. */
  datatype Project = Project(id: int, labelText: string, text: string, img: string, stack: string, link: string)

  /** A row of `technologies`; `group` is what the group filter matches. */
  datatype Technology = Technology(id: int, labelText: string, img: string, group: string)

  const InstanceState: string := "_sa_instance_state"

  function PostAttributes(p: Post): seq<(string, Value)>
  {
    [(InstanceState, Internal), ("id", Int(p.id)), ("label", Str(p.labelText)), ("text", Str(p.text)),
     ("img", Str(p.img)), ("date", Str(p.date)), ("link", Str(p.link))]
  }

  function ProjectAttributes(p: Project): seq<(string, Value)>
  {
    [(InstanceState, Internal), ("id", Int(p.id)), ("label", Str(p.labelText)), ("text", Str(p.text)),
     ("img", Str(p.img)), ("stack", Str(p.stack)), ("link", Str(p.link))]
  }

  function TechnologyAttributes(t: Technology): seq<(string, Value)>
  {
    [(InstanceState, Internal), ("id", Int(t.id)), ("label", Str(t.labelText)), ("img", Str(t.img)),
     ("group", Str(t.group))]
  }

  /** The public names of a row's `__dict__` are its column names: every
      entry but the leading ORM state. */
  lemma PublicNamesSkipState(attrs: seq<(string, Value)>)
    requires |attrs| >= 1 && attrs[0].0 == InstanceState
    requires forall i :: 1 <= i < |attrs| ==> |attrs[i].0| > 0 && attrs[i].0[0] != '_'
    ensures PublicNames(attrs) == set i | 1 <= i < |attrs| :: attrs[i].0
  {
    assert IsPrivate(attrs[0].0);
  }

  /** Turns a known public key set and per-index values into the map
      `json` builds. */
  lemma SerializedIs(attrs: seq<(string, Value)>, expected: map<string, Value>)
    requires DistinctNames(attrs)
    requires expected.Keys == PublicNames(attrs)
    requires forall i :: 0 <= i < |attrs| && !IsPrivate(attrs[i].0) ==> expected[attrs[i].0] == attrs[i].1
    ensures Serialized(Instance(attrs)) == expected
  {
    PublicAttributesKeys(attrs);
    PublicAttributesValues(attrs);
    var got := Serialized(Instance(attrs));
    forall k | k in got
      ensures got[k] == expected[k]
    {
      var i :| 0 <= i < |attrs| && !IsPrivate(attrs[i].0) && attrs[i].0 == k;
    }
  }

  /** `json(post)`: every column, and no ORM state. */
  function PostJson(p: Post): (fields: map<string, Value>)
    ensures fields == map["id" := Int(p.id), "label" := Str(p.labelText), "text" := Str(p.text),
                          "img" := Str(p.img), "date" := Str(p.date), "link" := Str(p.link)]
  {
    var attrs := PostAttributes(p);
    var expected := map["id" := Int(p.id), "label" := Str(p.labelText), "text" := Str(p.text),
                        "img" := Str(p.img), "date" := Str(p.date), "link" := Str(p.link)];
    assert PublicNames(attrs) == expected.Keys by {
      PublicNamesSkipState(attrs);
      forall i | 1 <= i < |attrs|
        ensures attrs[i].0 in expected
      {
        if i == 1 {}
        else if i == 2 {}
        else if i == 3 {}
        else if i == 4 {}
        else if i == 5 {}
        else if i == 6 {}
      }
      forall k | k in expected
        ensures exists i :: 1 <= i < |attrs| && attrs[i].0 == k
      {
        if k == attrs[1].0 {}
        else if k == attrs[2].0 {}
        else if k == attrs[3].0 {}
        else if k == attrs[4].0 {}
        else if k == attrs[5].0 {}
        else if k == attrs[6].0 {}
      }
    }
    SerializedIs(attrs, expected);
    Serialized(Instance(attrs))
  }

  /** `json(project)`: every column, and no ORM state. */
  function ProjectJson(p: Project): (fields: map<string, Value>)
    ensures fields == map["id" := Int(p.id), "label" := Str(p.labelText), "text" := Str(p.text),
                          "img" := Str(p.img), "stack" := Str(p.stack), "link" := Str(p.link)]
  {
    var attrs := ProjectAttributes(p);
    var expected := map["id" := Int(p.id), "label" := Str(p.labelText), "text" := Str(p.text),
                        "img" := Str(p.img), "stack" := Str(p.stack), "link" := Str(p.link)];
    assert PublicNames(attrs) == expected.Keys by {
      PublicNamesSkipState(attrs);
      forall i | 1 <= i < |attrs|
        ensures attrs[i].0 in expected
      {
        if i == 1 {}
        else if i == 2 {}
        else if i == 3 {}
        else if i == 4 {}
        else if i == 5 {}
        else if i == 6 {}
      }
      forall k | k in expected
        ensures exists i :: 1 <= i < |attrs| && attrs[i].0 == k
      {
        if k == attrs[1].0 {}
        else if k == attrs[2].0 {}
        else if k == attrs[3].0 {}
        else if k == attrs[4].0 {}
        else if k == attrs[5].0 {}
        else if k == attrs[6].0 {}
      }
    }
    SerializedIs(attrs, expected);
    Serialized(Instance(attrs))
  }

  /** `json(technology)`: every column, and no ORM state. */
  function TechnologyJson(t: Technology): (fields: map<string, Value>)
    ensures fields == map["id" := Int(t.id), "label" := Str(t.labelText), "img" := Str(t.img),
                          "group" := Str(t.group)]
  {
    var attrs := TechnologyAttributes(t);
    var expected := map["id" := Int(t.id), "label" := Str(t.labelText), "img" := Str(t.img),
                        "group" := Str(t.group)];
    assert PublicNames(attrs) == expected.Keys by {
      PublicNamesSkipState(attrs);
      forall i | 1 <= i < |attrs|
        ensures attrs[i].0 in expected
      {
        if i == 1 {}
        else if i == 2 {}
        else if i == 3 {}
        else if i == 4 {}
      }
      forall k | k in expected
        ensures exists i :: 1 <= i < |attrs| && attrs[i].0 == k
      {
        if k == attrs[1].0 {}
        else if k == attrs[2].0 {}
        else if k == attrs[3].0 {}
        else if k == attrs[4].0 {}
      }
    }
    SerializedIs(attrs, expected);
    Serialized(Instance(attrs))
  }
}
