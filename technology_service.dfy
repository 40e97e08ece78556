/**
 * `TechnologyService`: create, overwrite, list, fetch, filter by group and
 * delete rows of the `technologies` table, each mutation committed or
 * rolled back as a whole.
 */
module TechnologyService {
  import opened Runtime
  import opened Models
  import Table

  /** The form keys `new_technology` and `update_technology_by_id` read, in
      the order they read them. `mode` is read although `technologies` has
      no such column. */
  const TechnologyKeys: seq<string> := ["label", "img", "group", "mode"]

  predicate HasTechnologyKeys(data: Form)
  {
    forall k :: k in TechnologyKeys ==> k in data
  }

  /** The row `new_technology` builds for a complete form. */
  function TechnologyFromForm(id: int, data: Form): (p: Technology)
    requires HasTechnologyKeys(data)
    ensures p.id == id
  {
    Technology(id, data["label"], data["img"], data["group"])
  }

  /** The row `update_technology_by_id` leaves behind: label, img and group
      replaced from the form, the key kept. */
  function Overwrite(p: Technology, data: Form): (q: Technology)
    requires HasTechnologyKeys(data)
    ensures q == TechnologyFromForm(p.id, data)
  {
    p.(labelText := data["label"], img := data["img"], group := data["group"])
  }

  /** What `new_technology` raises: the `KeyError` of the first absent key,
      else the store's error, if there is one. */
  function CreateFault(data: Form, storeError: Option<string>): Option<Fault>
  {
    match FirstMissing(TechnologyKeys, data)
    case Some(key) => Some(KeyError(key))
    case None => if storeError.Some? then Some(DatabaseError(storeError.value)) else None
  }

  /** What `update_technology_by_id` raises: `data['label']` first, then the
      `AttributeError` of a missing row, then the remaining keys in order
      and the commit. */
  function UpdateFault(data: Form, found: bool, storeError: Option<string>): Option<Fault>
  {
    if "label" !in data then Some(KeyError("label"))
    else if !found then Some(AttributeError("NoneType", "label"))
    else CreateFault(data, storeError)
  }

  /** A form with every key can fail only in the store. */
  lemma CompleteFormFailsOnlyInStore(data: Form, found: bool, storeError: Option<string>)
    requires HasTechnologyKeys(data)
    ensures CreateFault(data, storeError) == if storeError.Some? then Some(DatabaseError(storeError.value)) else None
    ensures found ==> UpdateFault(data, found, storeError) == CreateFault(data, storeError)
  {
  }

  /** An update of a missing row never succeeds. */
  lemma UpdateOfMissingRowRaises(data: Form, storeError: Option<string>)
    ensures UpdateFault(data, false, storeError).Some?
    ensures "label" in data ==> UpdateFault(data, false, storeError) == Some(AttributeError("NoneType", "label"))
  {
  }

  /** The rows of a scan whose group is exactly `group`, in scan order. */
  function InGroup(techs: seq<Technology>, group: string): (matching: seq<Technology>)
    ensures |matching| <= |techs|
    ensures forall t :: t in matching <==> t in techs && t.group == group
    decreases |techs|
  {
    if techs == [] then []
    else (if techs[0].group == group then [techs[0]] else []) + InGroup(techs[1..], group)
  }

  /** Ids strictly increase along the sequence. */
  predicate IdsAscending(techs: seq<Technology>)
  {
    forall i, j :: 0 <= i < j < |techs| ==> techs[i].id < techs[j].id
  }

  lemma TailAscending(techs: seq<Technology>)
    requires techs != [] && IdsAscending(techs)
    ensures IdsAscending(techs[1..])
    ensures forall t :: t in techs[1..] ==> techs[0].id < t.id
  {
    var tail := techs[1..];
    forall i, j | 0 <= i < j < |tail|
      ensures tail[i].id < tail[j].id
    {
      assert tail[i] == techs[i + 1] && tail[j] == techs[j + 1];
    }
    forall t | t in tail
      ensures techs[0].id < t.id
    {
      var m :| 0 <= m < |tail| && tail[m] == t;
      assert techs[m + 1] == t;
    }
  }

  lemma ConsAscending(first: Technology, rest: seq<Technology>)
    requires IdsAscending(rest) && forall t :: t in rest ==> first.id < t.id
    ensures IdsAscending([first] + rest)
  {
    var s := [first] + rest;
    forall i, j | 0 <= i < j < |s|
      ensures s[i].id < s[j].id
    {
      assert s[j] == rest[j - 1] && rest[j - 1] in rest;
      if i > 0 {
        assert s[i] == rest[i - 1];
      }
    }
  }

  /** The filter keeps the scan's order: rows in ascending id order stay so. */
  lemma {:induction false} InGroupKeepsOrder(techs: seq<Technology>, group: string)
    requires IdsAscending(techs)
    ensures IdsAscending(InGroup(techs, group))
    decreases |techs|
  {
    if techs != [] {
      TailAscending(techs);
      InGroupKeepsOrder(techs[1..], group);
      var rest := InGroup(techs[1..], group);
      if techs[0].group == group {
        ConsAscending(techs[0], rest);
        assert InGroup(techs, group) == [techs[0]] + rest;
      } else {
        assert InGroup(techs, group) == rest;
      }
    }
  }

  /** The value `get_technologies_by_group(group)` returns for a table. */
  function GroupQuery(rows: map<int, Technology>, group: string): (found: Option<seq<Technology>>)
    ensures found.None? <==> forall k :: k in rows ==> rows[k].group != group
    ensures found.Some? ==> forall t :: t in found.value <==> t in rows.Values && t.group == group
  {
    var all := Table.Listing(rows);
    Table.ListingHoldsEveryRow(rows);
    var matching := InGroup(all, group);
    if |matching| == 0 then
      assert forall k :: k in rows ==> rows[k] in all;
      None
    else
      assert matching[0] in matching;
      Some(matching)
  }

  /** The rows of a group come in ascending id order. */
  lemma GroupQueryInIdOrder(rows: map<int, Technology>, group: string)
    requires IdsMatchKeys(rows) && GroupQuery(rows, group).Some?
    ensures GroupQuery(rows, group).value == InGroup(Table.Listing(rows), group)
    ensures IdsAscending(GroupQuery(rows, group).value)
  {
    Table.ListingByKey(rows, (row: Technology) => row.id);
    InGroupKeepsOrder(Table.Listing(rows), group);
  }

  predicate IdsMatchKeys(rows: map<int, Technology>)
  {
    forall k :: k in rows ==> rows[k].id == k
  }

  class TechnologyTable {
    var technologies: map<int, Technology>

    ghost predicate Valid()
      reads this
    {
      IdsMatchKeys(technologies) && Table.PositiveKeys(technologies)
    }

    constructor ()
      ensures Valid() && technologies == map[]
    {
      technologies := map[];
    }

    /** `new_technology(data)`: on success exactly one new row under an unused
        id, built from the form; on failure no change. */
    method NewTechnology(data: Form, storeError: Option<string>) returns (r: Outcome<Technology>)
      requires Valid()
      modifies this
      ensures Valid()
      ensures r.Raised? <==> CreateFault(data, storeError).Some?
      ensures r.Raised? ==> r.fault == CreateFault(data, storeError).value && technologies == old(technologies)
      ensures r.Returned? ==> HasTechnologyKeys(data) && r.value.id >= 1 && r.value.id !in old(technologies)
      ensures r.Returned? ==> r.value == TechnologyFromForm(r.value.id, data) && technologies == old(technologies)[r.value.id := r.value]
    {
      var missing := FirstMissing(TechnologyKeys, data);
      if missing.Some? {
        return Raised(KeyError(missing.value));
      }
      var technology := TechnologyFromForm(Table.NextId(technologies.Keys), data);
      var staged := technologies[technology.id := technology];
      if storeError.Some? {
        // Rolled back: the staged row is discarded.
        return Raised(DatabaseError(storeError.value));
      }
      technologies := staged;
      return Returned(technology);
    }

    /** `update_technology_by_id(data, id)`: loads the row, assigns its fields one by
        one and commits; anything raised rolls the session back. A failing
        lookup (`lookupError`) raises before any field is read, a failing
        commit (`storeError`) after every field is assigned. */
    method UpdateTechnologyById(data: Form, id: int, lookupError: Option<string>, storeError: Option<string>) returns (r: Outcome<()>)
      requires Valid()
      modifies this
      ensures Valid()
      ensures lookupError.Some? ==> r == Raised(DatabaseError(lookupError.value)) && technologies == old(technologies)
      ensures lookupError.None? ==> (r.Raised? <==> UpdateFault(data, id in old(technologies), storeError).Some?)
      ensures lookupError.None? && r.Raised? ==> r.fault == UpdateFault(data, id in old(technologies), storeError).value && technologies == old(technologies)
      ensures r.Returned? ==> id in old(technologies) && HasTechnologyKeys(data)
      ensures r.Returned? ==> technologies == old(technologies)[id := Overwrite(old(technologies)[id], data)]
    {
      if lookupError.Some? {
        // The lookup itself fails: rolled back and re-raised.
        return Raised(DatabaseError(lookupError.value));
      }
      var found := if id in technologies then Some(technologies[id]) else None;
      if "label" !in data {
        return Raised(KeyError("label"));
      }
      if found.None? {
        return Raised(AttributeError("NoneType", "label"));
      }
      var row := found.value.(labelText := data["label"]);
      if "img" !in data {
        FirstMissingAt(TechnologyKeys, data, 1);
        return Raised(KeyError("img"));
      }
      row := row.(img := data["img"]);
      if "group" !in data {
        FirstMissingAt(TechnologyKeys, data, 2);
        return Raised(KeyError("group"));
      }
      row := row.(group := data["group"]);
      if "mode" !in data {
        FirstMissingAt(TechnologyKeys, data, 3);
        return Raised(KeyError("mode"));
      }
      // `technology.mode = ...` sets a plain attribute that is not a column.
      if storeError.Some? {
        // Rolled back: the edited row is discarded.
        return Raised(DatabaseError(storeError.value));
      }
      technologies := technologies[id := row];
      return Returned(());
    }

    /** The update with the existence check `update_technology_by_id` lacks:
        a missing row is reported as `false`, with nothing read from the form
        and nothing changed; a failing lookup and an existing row behave as
        before. */
    method UpdateTechnologyByIdChecked(data: Form, id: int, lookupError: Option<string>, storeError: Option<string>) returns (r: Outcome<bool>)
      requires Valid()
      modifies this
      ensures Valid()
      ensures lookupError.Some? ==> r == Raised(DatabaseError(lookupError.value)) && technologies == old(technologies)
      ensures lookupError.None? && id !in old(technologies) ==> r == Returned(false) && technologies == old(technologies)
      ensures lookupError.None? && id in old(technologies) ==> (r.Raised? <==> UpdateFault(data, true, storeError).Some?)
      ensures lookupError.None? && id in old(technologies) && r.Raised? ==> r.fault == UpdateFault(data, true, storeError).value && technologies == old(technologies)
      ensures lookupError.None? && id in old(technologies) && r.Returned? ==>
                r.value && HasTechnologyKeys(data) && technologies == old(technologies)[id := Overwrite(old(technologies)[id], data)]
    {
      if lookupError.Some? {
        return Raised(DatabaseError(lookupError.value));
      }
      if id !in technologies {
        return Returned(false);
      }
      var done := UpdateTechnologyById(data, id, None, storeError);
      match done
      case Raised(f) => return Raised(f);
      case Returned(_) => return Returned(true);
    }

    /** `get_all_technologys()`: a failing read re-raises; otherwise the scan. */
    method GetAllTechnologies(storeError: Option<string>) returns (r: Outcome<Option<seq<Technology>>>)
      requires Valid()
      ensures r.Raised? <==> storeError.Some?
      ensures r.Raised? ==> r.fault == DatabaseError(storeError.value)
      ensures r.Returned? ==> r.value == Table.QueryAll(technologies)
    {
      if storeError.Some? {
        return Raised(DatabaseError(storeError.value));
      }
      var all := Table.Listing(technologies);
      if |all| == 0 {
        return Returned(None);
      }
      return Returned(Some(all));
    }

    /** `get_technology_by_id(id)`: a failing read re-raises; otherwise the
        stored row or `None`. Nothing changes. */
    method GetTechnologyById(id: int, storeError: Option<string>) returns (r: Outcome<Option<Technology>>)
      requires Valid()
      ensures r.Raised? <==> storeError.Some?
      ensures r.Raised? ==> r.fault == DatabaseError(storeError.value)
      ensures r.Returned? ==> (r.value.None? <==> id !in technologies)
      ensures r.Returned? && r.value.Some? ==> r.value.value == technologies[id] && r.value.value.id == id
    {
      if storeError.Some? {
        return Raised(DatabaseError(storeError.value));
      }
      if id !in technologies {
        return Returned(None);
      }
      return Returned(Some(technologies[id]));
    }

    /** `get_technologies_by_group(group)`: a failing read re-raises;
        otherwise the group query over the scan. */
    method GetTechnologiesByGroup(group: string, storeError: Option<string>) returns (r: Outcome<Option<seq<Technology>>>)
      requires Valid()
      ensures r.Raised? <==> storeError.Some?
      ensures r.Raised? ==> r.fault == DatabaseError(storeError.value)
      ensures r.Returned? ==> r.value == GroupQuery(technologies, group)
    {
      if storeError.Some? {
        return Raised(DatabaseError(storeError.value));
      }
      var matching := InGroup(Table.Listing(technologies), group);
      if |matching| == 0 {
        return Returned(None);
      }
      return Returned(Some(matching));
    }

    /** `delete_technology_by_id(id)`: a failing lookup (`lookupError`) re-raises;
        `None` for a missing row; otherwise removes exactly that row and
        returns it, unless the commit (`storeError`) fails. */
    method DeleteTechnologyById(id: int, lookupError: Option<string>, storeError: Option<string>) returns (r: Outcome<Option<Technology>>)
      requires Valid()
      modifies this
      ensures Valid()
      ensures lookupError.Some? ==> r == Raised(DatabaseError(lookupError.value)) && technologies == old(technologies)
      ensures lookupError.None? && id !in old(technologies) ==> r == Returned(None) && technologies == old(technologies)
      ensures lookupError.None? && id in old(technologies) && storeError.Some? ==> r == Raised(DatabaseError(storeError.value)) && technologies == old(technologies)
      ensures lookupError.None? && id in old(technologies) && storeError.None? ==> r == Returned(Some(old(technologies)[id])) && technologies == old(technologies) - {id}
    {
      if lookupError.Some? {
        return Raised(DatabaseError(lookupError.value));
      }
      if id !in technologies {
        return Returned(None);
      }
      var removed := technologies[id];
      var staged := technologies - {id};
      if storeError.Some? {
        return Raised(DatabaseError(storeError.value));
      }
      technologies := staged;
      return Returned(Some(removed));
    }
  }

  /** A created technology reads back as built from the form. */
  method CreateThenGet(table: TechnologyTable, data: Form) returns (created: Outcome<Technology>, fetched: Outcome<Option<Technology>>)
    requires table.Valid() && HasTechnologyKeys(data)
    modifies table
    ensures created.Returned? && fetched == Returned(Some(created.value))
    ensures created.value == TechnologyFromForm(created.value.id, data)
  {
    CompleteFormFailsOnlyInStore(data, false, None);
    created := table.NewTechnology(data, None);
    fetched := table.GetTechnologyById(created.value.id, None);
  }

  /** An update is a full overwrite: the row reads back as the form. */
  method UpdateThenGet(table: TechnologyTable, data: Form, id: int) returns (updated: Outcome<()>, fetched: Outcome<Option<Technology>>)
    requires table.Valid() && HasTechnologyKeys(data) && id in table.technologies
    modifies table
    ensures updated.Returned? && fetched == Returned(Some(TechnologyFromForm(id, data)))
  {
    CompleteFormFailsOnlyInStore(data, true, None);
    updated := table.UpdateTechnologyById(data, id, None, None);
    fetched := table.GetTechnologyById(id, None);
  }

  /** Deleting twice: the first call returns the row, the second `None`. */
  method DeleteTwice(table: TechnologyTable, id: int) returns (first: Outcome<Option<Technology>>, second: Outcome<Option<Technology>>)
    requires table.Valid() && id in table.technologies
    modifies table
    ensures first == Returned(Some(old(table.technologies)[id])) && second == Returned(None)
    ensures table.technologies == old(table.technologies) - {id}
  {
    first := table.DeleteTechnologyById(id, None, None);
    second := table.DeleteTechnologyById(id, None, None);
  }
}
