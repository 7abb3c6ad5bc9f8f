/**
 * The filter-management endpoint of app/api/filters/route.ts: POST dispatches
 * on `action` (add, update, delete, toggle) to the filters table and answers the
 * full list after the change. A thrown error (absent criteria, a taken id) is
 * answered with 500 and, since it happens before any write, changes nothing.
 */
module FiltersRoute {
  import opened Wrappers
  import opened Types
  import opened Db

  /** Criteria as the request carries them: None for an absent list. */
  datatype CriteriaInput = CriteriaInput(
    titleIncludes: Option<seq<string>>,
    titleExcludes: Option<seq<string>>,
    descriptionIncludes: Option<seq<string>>,
    descriptionExcludes: Option<seq<string>>)

  /** `filter` of an "add" request; `criteria` None when absent. */
  datatype FilterInput = FilterInput(id: string, name: string, enabled: Option<bool>, criteria: Option<CriteriaInput>)

  /** `updates` of an "update" request. */
  datatype UpdateInput = UpdateInput(name: string, enabled: Option<bool>, criteria: Option<CriteriaInput>)

  /** The request body; a missing `id` is "". */
  datatype FiltersRequest = FiltersRequest(
    action: string,
    filter: Option<FilterInput>,
    id: string,
    updates: Option<UpdateInput>)

  /** `list || []` on each of the four keyword lists. */
  function NormaliseCriteria(c: CriteriaInput): (s: StoredCriteria)
    ensures s.titleIncludes == c.titleIncludes.GetOr([])
    ensures s.titleExcludes == c.titleExcludes.GetOr([])
    ensures s.descriptionIncludes == c.descriptionIncludes.GetOr([])
    ensures s.descriptionExcludes == c.descriptionExcludes.GetOr([])
  {
    StoredCriteria(
      c.titleIncludes.GetOr([]),
      c.titleExcludes.GetOr([]),
      c.descriptionIncludes.GetOr([]),
      c.descriptionExcludes.GetOr([]))
  }

  /** What a request does to the table: the status, and the rows afterwards. */
  datatype Dispatched = Dispatched(status: int, rows: seq<FilterRow>)

  /** The `switch (action)` of POST, over the table's rows. */
  function Dispatch(req: FiltersRequest, rows: seq<FilterRow>): Dispatched {
    if req.action == "add" then
      if req.filter.None? then Dispatched(400, rows)
      else
        var f := req.filter.value;
        if f.criteria.None? || HasId(rows, f.id) then Dispatched(500, rows)
        else Dispatched(200, rows + [FilterRow(f.id, f.name, f.enabled == Some(true), NormaliseCriteria(f.criteria.value))])
    else if req.action == "update" then
      if req.id == "" || req.updates.None? then Dispatched(400, rows)
      else
        var u := req.updates.value;
        if u.criteria.None? then Dispatched(500, rows)
        else Dispatched(200, UpdateRows(rows, req.id, u.name, u.enabled == Some(true), NormaliseCriteria(u.criteria.value)))
    else if req.action == "delete" then
      if req.id == "" then Dispatched(400, rows)
      else Dispatched(200, DeleteRows(rows, req.id))
    else if req.action == "toggle" then
      if req.id == "" then Dispatched(400, rows)
      else Dispatched(200, ToggleRows(rows, req.id))
    else Dispatched(400, rows)
  }

  /** "toggle": the filter read by `get(id)`, written back with `enabled` flipped. */
  function ToggleRows(rows: seq<FilterRow>, id: string): seq<FilterRow> {
    match FindRow(rows, id)
    case None => rows
    case Some(i) => UpdateRows(rows, id, rows[i].name, !rows[i].enabled, rows[i].criteria)
  }

  /** A request that fails, whatever the reason, leaves the table as it was. */
  lemma FailureChangesNothing(req: FiltersRequest, rows: seq<FilterRow>)
    ensures Dispatch(req, rows).status in {200, 400, 500}
    ensures Dispatch(req, rows).status != 200 ==> Dispatch(req, rows).rows == rows
  {
  }

  /**
   * "add" without a filter is a 400 and "add" without criteria a 500; otherwise
   * the filter is appended with each missing keyword list stored as [], or
   * refused with 500 when its id is taken.
   */
  lemma AddSpec(req: FiltersRequest, rows: seq<FilterRow>)
    requires req.action == "add"
    ensures req.filter.None? ==> Dispatch(req, rows) == Dispatched(400, rows)
    ensures req.filter.Some? && req.filter.value.criteria.None? ==> Dispatch(req, rows) == Dispatched(500, rows)
    ensures req.filter.Some? && HasId(rows, req.filter.value.id) ==> Dispatch(req, rows) == Dispatched(500, rows)
    ensures Dispatch(req, rows).status == 200 ==>
      var f := req.filter.value;
      && Dispatch(req, rows).rows[..|rows|] == rows
      && Dispatch(req, rows).rows[|rows|..] == [FilterRow(f.id, f.name, f.enabled == Some(true), NormaliseCriteria(f.criteria.value))]
  {
    var d := Dispatch(req, rows);
    if d.status == 200 {
      assert d.rows[..|rows|] == rows;
    }
  }

  /** "update", "delete" and "toggle" without an id are refused with 400 and no change. */
  lemma MissingIdRejected(req: FiltersRequest, rows: seq<FilterRow>)
    requires req.action in ["update", "delete", "toggle"] && req.id == ""
    ensures Dispatch(req, rows) == Dispatched(400, rows)
  {
  }

  /** "update" whose updates have no criteria reaches the table and throws: 500, no change. */
  lemma UpdateWithoutCriteria(req: FiltersRequest, rows: seq<FilterRow>)
    requires req.action == "update" && req.id != "" && req.updates.Some? && req.updates.value.criteria.None?
    ensures Dispatch(req, rows) == Dispatched(500, rows)
  {
  }

  /** An action other than the four is refused with 400. */
  lemma UnknownActionRejected(req: FiltersRequest, rows: seq<FilterRow>)
    requires req.action !in ["add", "update", "delete", "toggle"]
    ensures Dispatch(req, rows) == Dispatched(400, rows)
  {
    assert req.action != "add" && req.action != "update" && req.action != "delete" && req.action != "toggle";
  }

  /**
   * "toggle" of an existing id flips only that filter's `enabled`; of an unknown
   * id it changes nothing and still succeeds.
   */
  lemma ToggleSpec(rows: seq<FilterRow>, id: string, i: nat)
    requires UniqueIds(rows) && i < |rows|
    ensures |ToggleRows(rows, id)| == |rows|
    ensures rows[i].id == id ==> ToggleRows(rows, id)[i] == rows[i].(enabled := !rows[i].enabled)
    ensures rows[i].id != id ==> ToggleRows(rows, id)[i] == rows[i]
    ensures !HasId(rows, id) ==> ToggleRows(rows, id) == rows
  {
    match FindRow(rows, id)
    case None =>
    case Some(k) =>
      if rows[i].id == id {
        assert k == i;
      }
  }

  /** Toggling the same id twice restores the table. */
  lemma ToggleTwice(rows: seq<FilterRow>, id: string)
    requires UniqueIds(rows)
    ensures ToggleRows(ToggleRows(rows, id), id) == rows
  {
    var once := ToggleRows(rows, id);
    assert UniqueIds(once) by {
      forall i | 0 <= i < |rows| ensures once[i].id == rows[i].id {
        ToggleSpec(rows, id, i);
      }
    }
    var twice := ToggleRows(once, id);
    forall i | 0 <= i < |rows| ensures twice[i] == rows[i] {
      ToggleSpec(rows, id, i);
      ToggleSpec(once, id, i);
    }
  }

  /** The answer: the status and, on success, the full filter list. */
  datatype FiltersResponse = FiltersResponse(status: int, filters: Option<seq<Filter>>)

  /** `POST`, performed on the table, agreeing with `Dispatch`. */
  method Post(req: FiltersRequest, db: FiltersDb) returns (r: FiltersResponse)
    requires db.Valid()
    modifies db
    ensures db.Valid()
    ensures Dispatched(r.status, db.rows) == Dispatch(req, old(db.rows))
    ensures r.filters == if r.status == 200 then Some(db.GetAll()) else None
  {
    if req.action == "add" {
      if req.filter.None? {
        return FiltersResponse(400, None);
      }
      var f := req.filter.value;
      if f.criteria.None? {
        return FiltersResponse(500, None);
      }
      var ok := db.Create(FilterRow(f.id, f.name, f.enabled == Some(true), NormaliseCriteria(f.criteria.value)));
      if !ok {
        return FiltersResponse(500, None);
      }
    } else if req.action == "update" {
      if req.id == "" || req.updates.None? {
        return FiltersResponse(400, None);
      }
      var u := req.updates.value;
      var criteria := if u.criteria.Some? then Some(NormaliseCriteria(u.criteria.value)) else None;
      var ok := db.Update(req.id, u.name, u.enabled, criteria);
      if !ok {
        return FiltersResponse(500, None);
      }
    } else if req.action == "delete" {
      if req.id == "" {
        return FiltersResponse(400, None);
      }
      db.Delete(req.id);
    } else if req.action == "toggle" {
      if req.id == "" {
        return FiltersResponse(400, None);
      }
      var existing := db.Get(req.id);
      if existing.Some? {
        var e := existing.value;
        var ok := db.Update(req.id, e.name, Some(!e.enabled), Some(Stored(e.criteria)));
      }
    } else {
      return FiltersResponse(400, None);
    }
    r := FiltersResponse(200, Some(db.GetAll()));
  }
}
