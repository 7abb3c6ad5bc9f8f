/**
 * The browser-side filter store of lib/client-storage.ts: a filter list kept
 * under one storage key, read back on every operation, changed, and written
 * again. Outside a browser (no `window`) reads give [] and writes do nothing.
 */
module ClientStorage {
  import opened Wrappers
  import opened Seqs
  import opened Types

  /** What the storage key holds: nothing, text that does not parse, or a saved list. */
  datatype StoredFilters = Absent | Corrupt | Saved(filters: seq<Filter>)

  /** `Partial<Filter>`: None for a field the update does not set. */
  datatype FilterUpdate = FilterUpdate(
    id: Option<string>,
    name: Option<string>,
    enabled: Option<bool>,
    criteria: Option<FilterCriteria>)

  /** `{ ...f, ...updates }`. */
  function Merge(f: Filter, u: FilterUpdate): (g: Filter)
    ensures g.id == u.id.GetOr(f.id) && g.name == u.name.GetOr(f.name)
    ensures g.enabled == u.enabled.GetOr(f.enabled) && g.criteria == u.criteria.GetOr(f.criteria)
  {
    Filter(u.id.GetOr(f.id), u.name.GetOr(f.name), u.enabled.GetOr(f.enabled), u.criteria.GetOr(f.criteria))
  }

  function HasIdIn(id: string): Filter -> bool {
    (f: Filter) => f.id == id
  }

  function LacksId(id: string): Filter -> bool {
    (f: Filter) => f.id != id
  }

  /** The list after `filters[index] = { ...filters[index], ...updates }` at the first match. */
  function UpdateFirst(filters: seq<Filter>, id: string, u: FilterUpdate): seq<Filter> {
    match FirstIndex(filters, HasIdIn(id))
    case None => filters
    case Some(i) => filters[i := Merge(filters[i], u)]
  }

  /** The list after `filter.enabled = !filter.enabled` on the first match. */
  function Toggled(filters: seq<Filter>, id: string): seq<Filter> {
    match FirstIndex(filters, HasIdIn(id))
    case None => filters
    case Some(i) => filters[i := filters[i].(enabled := !filters[i].enabled)]
  }

  /** Only the first filter with that id is merged with the update; the rest stay. */
  lemma UpdateFirstSpec(filters: seq<Filter>, id: string, u: FilterUpdate, i: nat)
    requires i < |filters|
    ensures |UpdateFirst(filters, id, u)| == |filters|
    ensures (filters[i].id == id && forall j :: 0 <= j < i ==> filters[j].id != id) ==>
      UpdateFirst(filters, id, u)[i] == Merge(filters[i], u)
    ensures !(filters[i].id == id && forall j :: 0 <= j < i ==> filters[j].id != id) ==>
      UpdateFirst(filters, id, u)[i] == filters[i]
  {
  }

  /**
   * Toggling flips `enabled` on the first filter with that id and changes
   * nothing else; with no such filter the list is unchanged.
   */
  lemma ToggledSpec(filters: seq<Filter>, id: string, i: nat)
    requires i < |filters|
    ensures |Toggled(filters, id)| == |filters|
    ensures Toggled(filters, id)[i].id == filters[i].id
    ensures Toggled(filters, id)[i].name == filters[i].name
    ensures Toggled(filters, id)[i].criteria == filters[i].criteria
    ensures (filters[i].id == id && forall j :: 0 <= j < i ==> filters[j].id != id) ==>
      Toggled(filters, id)[i].enabled == !filters[i].enabled
    ensures !(filters[i].id == id && forall j :: 0 <= j < i ==> filters[j].id != id) ==>
      Toggled(filters, id)[i] == filters[i]
  {
  }

  /** Toggling the same id twice restores the list. */
  lemma ToggledTwice(filters: seq<Filter>, id: string)
    ensures Toggled(Toggled(filters, id), id) == filters
  {
    var once := Toggled(filters, id);
    match FirstIndex(filters, HasIdIn(id))
    case None =>
    case Some(i) =>
      assert forall j :: 0 <= j < |filters| ==> once[j].id == filters[j].id;
      var k := FirstIndex(once, HasIdIn(id));
      assert k == Some(i) by {
        assert HasIdIn(id)(once[i]);
      }
  }

  /** Deleting keeps, in order, exactly the filters with another id. */
  lemma DeleteSpec(filters: seq<Filter>, id: string, f: Filter)
    ensures IsSubsequence(Select(filters, LacksId(id)), filters)
    ensures f in Select(filters, LacksId(id)) <==> f in filters && f.id != id
    ensures multiset(Select(filters, LacksId(id)))[f] == if f.id != id then multiset(filters)[f] else 0
  {
    SelectIsSubsequence(filters, LacksId(id));
    SelectMembership(filters, LacksId(id), f);
    SelectMultiplicity(filters, LacksId(id), f);
  }

  /** `clientStorage`, with whether a `window` exists. */
  class ClientStorage {
    const hasWindow: bool
    var stored: StoredFilters

    constructor(hasWindow: bool, stored: StoredFilters)
      ensures this.hasWindow == hasWindow && this.stored == stored
    {
      this.hasWindow := hasWindow;
      this.stored := stored;
    }

    /** `getFilters()`: [] without a window, with nothing stored, or when parsing fails. */
    function GetFilters(): (r: seq<Filter>)
      reads this
      ensures r != [] ==> hasWindow && stored.Saved? && r == stored.filters
      ensures hasWindow && stored.Saved? ==> r == stored.filters
    {
      if hasWindow && stored.Saved? then stored.filters else []
    }

    /** `saveFilters(filters)`. */
    method SaveFilters(filters: seq<Filter>)
      modifies this
      ensures stored == if hasWindow then Saved(filters) else old(stored)
    {
      if hasWindow {
        stored := Saved(filters);
      }
    }

    /** `addFilter(filter)`: appends at the end of the stored list. */
    method AddFilter(filter: Filter)
      modifies this
      ensures stored == if hasWindow then Saved(old(GetFilters()) + [filter]) else old(stored)
      ensures hasWindow ==> GetFilters() == old(GetFilters()) + [filter]
    {
      var filters := GetFilters();
      filters := filters + [filter];
      SaveFilters(filters);
    }

    /** `updateFilter(id, updates)`: storage is rewritten only when some filter has that id. */
    method UpdateFilter(id: string, updates: FilterUpdate)
      modifies this
      ensures FirstIndex(old(GetFilters()), HasIdIn(id)).Some? ==>
        stored == Saved(UpdateFirst(old(GetFilters()), id, updates))
      ensures FirstIndex(old(GetFilters()), HasIdIn(id)).None? ==> stored == old(stored)
    {
      var filters := GetFilters();
      var index := FirstIndex(filters, HasIdIn(id));
      if index.Some? {
        filters := filters[index.value := Merge(filters[index.value], updates)];
        SaveFilters(filters);
      }
    }

    /** `deleteFilter(id)`: always rewrites storage with the other filters. */
    method DeleteFilter(id: string)
      modifies this
      ensures stored == if hasWindow then Saved(Select(old(GetFilters()), LacksId(id))) else old(stored)
    {
      var filters := GetFilters();
      var updated := Select(filters, LacksId(id));
      SaveFilters(updated);
    }

    /** `toggleFilter(id)`: flips the first match; no match means no save. */
    method ToggleFilter(id: string)
      modifies this
      ensures FirstIndex(old(GetFilters()), HasIdIn(id)).Some? ==>
        stored == Saved(Toggled(old(GetFilters()), id))
      ensures FirstIndex(old(GetFilters()), HasIdIn(id)).None? ==> stored == old(stored)
    {
      var filters := GetFilters();
      var index := FirstIndex(filters, HasIdIn(id));
      if index.Some? {
        var filter := filters[index.value];
        filters := filters[index.value := filter.(enabled := !filter.enabled)];
        SaveFilters(filters);
      }
    }
  }
}
