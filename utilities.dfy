/**
 * The helpers every route file imports: the method comparison, the image
 * URL builder and `json`, which turns a loaded row into a field map.
 */
module Utilities {
  import opened Runtime

  // ---------------------------------------------------------------------
  // check_method
  // ---------------------------------------------------------------------

  /** `str.upper()` on one character, for the ASCII letters. */
  function UpperChar(c: char): char
  {
    if 'a' <= c <= 'z' then (c as int - 32) as char else c
  }

  function Upper(s: string): string
  {
    seq(|s|, i requires 0 <= i < |s| => UpperChar(s[i]))
  }

  /** `check_method(current, target)`: the two method names are equal once
      both are upper-cased. */
  function CheckMethod(current: string, target: string): bool
  {
    Upper(current) == Upper(target)
  }

  predicate IsLetter(c: char)
  {
    'a' <= c <= 'z' || 'A' <= c <= 'Z'
  }

  /** Two characters that are the same letter in different case, or the
      same character. */
  predicate SameLetter(c: char, d: char)
  {
    c == d || (IsLetter(c) && IsLetter(d) && (c as int - d as int == 32 || d as int - c as int == 32))
  }

  /** Case-insensitive equality, stated character by character. */
  predicate EqualIgnoringCase(a: string, b: string)
  {
    |a| == |b| && forall i :: 0 <= i < |a| ==> SameLetter(a[i], b[i])
  }

  lemma UpperCharAgrees(c: char, d: char)
    ensures UpperChar(c) == UpperChar(d) <==> SameLetter(c, d)
  {
  }

  /** check_method accepts exactly the case-insensitive matches. */
  lemma CheckMethodIgnoresCase(current: string, target: string)
    ensures CheckMethod(current, target) <==> EqualIgnoringCase(current, target)
  {
    var u, v := Upper(current), Upper(target);
    if CheckMethod(current, target) {
      forall i | 0 <= i < |current|
        ensures SameLetter(current[i], target[i])
      {
        assert u[i] == v[i];
        UpperCharAgrees(current[i], target[i]);
      }
    }
    if EqualIgnoringCase(current, target) {
      forall i | 0 <= i < |u|
        ensures u[i] == v[i]
      {
        UpperCharAgrees(current[i], target[i]);
      }
    }
  }

  /** check_method is an equivalence: reflexive, symmetric, transitive. */
  lemma CheckMethodIsEquivalence(a: string, b: string, c: string)
    ensures CheckMethod(a, a)
    ensures CheckMethod(a, b) <==> CheckMethod(b, a)
    ensures CheckMethod(a, b) && CheckMethod(b, c) ==> CheckMethod(a, c)
  {
  }

  // ---------------------------------------------------------------------
  // image_url
  // ---------------------------------------------------------------------

  const ImageBase: string := "https://raw.githubusercontent.com/ccrayp/ccrayp/refs/heads/main/assets/"

  /** `image_url(path)`: the fixed asset location followed by the path. */
  function ImageUrl(path: string): (url: string)
    ensures |url| == |ImageBase| + |path|
    ensures url[..|ImageBase|] == ImageBase
    ensures url[|ImageBase|..] == path
  {
    ImageBase + path
  }

  /** Distinct paths give distinct URLs. */
  lemma ImageUrlInjective(p: string, q: string)
    requires ImageUrl(p) == ImageUrl(q)
    ensures p == q
  {
    assert p == ImageUrl(p)[|ImageBase|..];
  }

  // ---------------------------------------------------------------------
  // json
  // ---------------------------------------------------------------------

  /** What `json` is handed: `None`, or an object whose `__dict__` holds
      these (name, value) items in this order. */
  datatype PyObject = PyNone | Instance(attributes: seq<(string, Value)>)

  /** `key.startswith('_')`: the ORM's own attributes. */
  predicate IsPrivate(name: string)
  {
    |name| > 0 && name[0] == '_'
  }

  /** A Python dictionary never holds a key twice. */
  predicate DistinctNames(attrs: seq<(string, Value)>)
  {
    forall i, j :: 0 <= i < j < |attrs| ==> attrs[i].0 != attrs[j].0
  }

  /** The names of the attributes that do not start with '_'. */
  function PublicNames(attrs: seq<(string, Value)>): set<string>
  {
    set i | 0 <= i < |attrs| && !IsPrivate(attrs[i].0) :: attrs[i].0
  }

  /** The map the loop in `json` has built after visiting `attrs`. */
  function PublicAttributes(attrs: seq<(string, Value)>): map<string, Value>
    decreases |attrs|
  {
    if attrs == [] then map[]
    else
      var last := attrs[|attrs| - 1];
      var earlier := PublicAttributes(attrs[..|attrs| - 1]);
      if IsPrivate(last.0) then earlier else earlier[last.0 := last.1]
  }

  /** The value `json(obj)` returns. */
  function Serialized(obj: PyObject): map<string, Value>
  {
    match obj
    case PyNone => map[]
    case Instance(attrs) => PublicAttributes(attrs)
  }

  /** The serialised keys are exactly the public attribute names. */
  lemma {:induction false} PublicAttributesKeys(attrs: seq<(string, Value)>)
    ensures PublicAttributes(attrs).Keys == PublicNames(attrs)
    decreases |attrs|
  {
    if attrs != [] {
      var front := attrs[..|attrs| - 1];
      PublicAttributesKeys(front);
      var n := |attrs| - 1;
      forall k | k in PublicNames(attrs)
        ensures k in PublicAttributes(attrs)
      {
        var i :| 0 <= i < |attrs| && !IsPrivate(attrs[i].0) && attrs[i].0 == k;
        if i < n {
          assert front[i] == attrs[i];
          assert k in PublicNames(front);
        }
      }
      forall k | k in PublicAttributes(attrs)
        ensures k in PublicNames(attrs)
      {
        if k in PublicNames(front) {
          var i :| 0 <= i < |front| && !IsPrivate(front[i].0) && front[i].0 == k;
          assert attrs[i] == front[i];
        } else {
          assert attrs[n].0 == k && !IsPrivate(attrs[n].0);
        }
      }
    }
  }

  /** With distinct names, each public attribute keeps its value. */
  lemma {:induction false} PublicAttributesValues(attrs: seq<(string, Value)>)
    requires DistinctNames(attrs)
    ensures forall i :: 0 <= i < |attrs| && !IsPrivate(attrs[i].0) ==>
              attrs[i].0 in PublicAttributes(attrs) && PublicAttributes(attrs)[attrs[i].0] == attrs[i].1
    decreases |attrs|
  {
    if attrs != [] {
      var front := attrs[..|attrs| - 1];
      var n := |attrs| - 1;
      PublicAttributesValues(front);
      forall i | 0 <= i < |attrs| && !IsPrivate(attrs[i].0)
        ensures attrs[i].0 in PublicAttributes(attrs) && PublicAttributes(attrs)[attrs[i].0] == attrs[i].1
      {
        if i < n {
          assert front[i] == attrs[i];
          assert attrs[i].0 != attrs[n].0;
        }
      }
    }
  }

  /** `json(obj)`: copies every attribute whose name does not start with
      '_' into a fresh dictionary; `None` gives the empty dictionary. */
  method Json(obj: PyObject) returns (result: map<string, Value>)
    ensures result == Serialized(obj)
    ensures obj.PyNone? ==> result == map[]
    ensures obj.Instance? ==> result.Keys == PublicNames(obj.attributes)
    ensures forall k :: k in result ==> !IsPrivate(k)
    ensures obj.Instance? && DistinctNames(obj.attributes) ==>
              forall i :: 0 <= i < |obj.attributes| && !IsPrivate(obj.attributes[i].0) ==>
                obj.attributes[i].0 in result && result[obj.attributes[i].0] == obj.attributes[i].1
  {
    if obj.PyNone? {
      return map[];
    }
    var attrs := obj.attributes;
    result := map[];
    for i := 0 to |attrs|
      invariant result == PublicAttributes(attrs[..i])
    {
      assert attrs[..i + 1][..i] == attrs[..i];
      var (name, value) := attrs[i];
      if IsPrivate(name) {
        continue;
      }
      result := result[name := value];
    }
    assert attrs[..|attrs|] == attrs;
    PublicAttributesKeys(attrs);
    if DistinctNames(attrs) {
      PublicAttributesValues(attrs);
    }
  }
}
