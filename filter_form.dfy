/**
 * The editing logic of components/filter-form.tsx: adding a keyword to one of
 * the four lists, removing one by position, and building the filter handed to
 * `onSave`. Each handler computes the next criteria from the current ones, as
 * the component's state setters receive them.
 */
module FilterForm {
  import opened Wrappers
  import opened Strings
  import opened Types

  /** The four keyword lists a form field can name. */
  datatype KeywordField = TitleIncludes | TitleExcludes | DescriptionIncludes | DescriptionExcludes

  /** `criteria[field] || []`. */
  function ListOf(c: FilterCriteria, field: KeywordField): seq<string> {
    match field
    case TitleIncludes => c.titleIncludes
    case TitleExcludes => c.titleExcludes
    case DescriptionIncludes => c.descriptionIncludes
    case DescriptionExcludes => c.descriptionExcludes
  }

  /** `{ ...criteria, [field]: list }`. */
  function WithList(c: FilterCriteria, field: KeywordField, list: seq<string>): (r: FilterCriteria)
    ensures ListOf(r, field) == list
    ensures forall other :: other != field ==> ListOf(r, other) == ListOf(c, other)
    ensures r.minDate == c.minDate && r.maxDate == c.maxDate
  {
    match field
    case TitleIncludes => c.(titleIncludes := list)
    case TitleExcludes => c.(titleExcludes := list)
    case DescriptionIncludes => c.(descriptionIncludes := list)
    case DescriptionExcludes => c.(descriptionExcludes := list)
  }

  /** The form's initial name and criteria: those of the filter being edited, or blank. */
  function InitialName(initial: Option<Filter>): string {
    if initial.Some? then initial.value.name else ""
  }

  function InitialCriteria(initial: Option<Filter>): FilterCriteria {
    if initial.Some? then initial.value.criteria else EmptyCriteria
  }

  /**
   * Saving an edited filter without touching the form keeps its id, enabled
   * flag and criteria; only surrounding whitespace is trimmed from its name.
   */
  lemma SaveUnchangedEdit(f: Filter, freshId: string)
    requires f.id != "" && Trim(f.name) != ""
    ensures HandleSave(InitialName(Some(f)), Some(f), InitialCriteria(Some(f)), freshId)
      == Some(f.(name := Trim(f.name)))
  {
  }

  /** The criteria and the field's input text after a handler ran. */
  datatype Edited = Edited(criteria: FilterCriteria, input: string)

  /**
   * `addKeyword(field, value, setter)`: a blank value changes nothing; otherwise
   * the trimmed value is appended to that list and the input is cleared.
   */
  function AddKeyword(c: FilterCriteria, field: KeywordField, value: string): (r: Edited)
    ensures Trim(value) == "" ==> r == Edited(c, value)
    ensures Trim(value) != "" ==>
      && ListOf(r.criteria, field) == ListOf(c, field) + [Trim(value)]
      && (forall other :: other != field ==> ListOf(r.criteria, other) == ListOf(c, other))
      && r.criteria.minDate == c.minDate && r.criteria.maxDate == c.maxDate
      && r.input == ""
  {
    if Trim(value) == "" then Edited(c, value)
    else Edited(WithList(c, field, ListOf(c, field) + [Trim(value)]), "")
  }

  /** `current.filter((_, i) => i !== index)`. */
  function RemoveAt(s: seq<string>, index: int): (r: seq<string>)
    ensures 0 <= index < |s| ==> r == s[..index] + s[index + 1..]
    ensures !(0 <= index < |s|) ==> r == s
  {
    if 0 <= index < |s| then s[..index] + s[index + 1..] else s
  }

  /** `removeKeyword(field, index)`. */
  function RemoveKeyword(c: FilterCriteria, field: KeywordField, index: int): (r: FilterCriteria)
    ensures ListOf(r, field) == RemoveAt(ListOf(c, field), index)
    ensures forall other :: other != field ==> ListOf(r, other) == ListOf(c, other)
  {
    WithList(c, field, RemoveAt(ListOf(c, field), index))
  }

  /**
   * Removing keeps the list's other elements in order: exactly one fewer, and
   * each element after the removed one moves up one place.
   */
  lemma RemoveKeywordSpec(c: FilterCriteria, field: KeywordField, index: nat, j: nat)
    requires index < |ListOf(c, field)|
    ensures |ListOf(RemoveKeyword(c, field, index), field)| == |ListOf(c, field)| - 1
    ensures j < index ==> ListOf(RemoveKeyword(c, field, index), field)[j] == ListOf(c, field)[j]
    ensures index <= j < |ListOf(c, field)| - 1 ==>
      ListOf(RemoveKeyword(c, field, index), field)[j] == ListOf(c, field)[j + 1]
  {
  }

  /** Adding a keyword and then removing it by its index gives back the criteria. */
  lemma AddThenRemove(c: FilterCriteria, field: KeywordField, value: string)
    requires Trim(value) != ""
    ensures RemoveKeyword(AddKeyword(c, field, value).criteria, field, |ListOf(c, field)|) == c
  {
    var added := AddKeyword(c, field, value).criteria;
    var list := ListOf(c, field) + [Trim(value)];
    assert list[..|ListOf(c, field)|] + list[|ListOf(c, field)| + 1..] == ListOf(c, field);
    var r := RemoveKeyword(added, field, |ListOf(c, field)|);
    assert forall f :: ListOf(r, f) == ListOf(c, f);
    assert r.minDate == c.minDate && r.maxDate == c.maxDate;
    assert r.titleIncludes == ListOf(r, TitleIncludes);
  }

  /**
   * `handleSave()`: nothing is saved under a blank name; otherwise the filter
   * carries the trimmed name and the criteria, the initial filter's id (when
   * non-empty) or `freshId`, and the initial filter's `enabled` or true.
   */
  function HandleSave(name: string, initial: Option<Filter>, criteria: FilterCriteria, freshId: string)
    : (saved: Option<Filter>)
    ensures saved.None? <==> Trim(name) == ""
    ensures saved.Some? ==>
      && saved.value.name == Trim(name)
      && saved.value.criteria == criteria
      && saved.value.id == (if initial.Some? && initial.value.id != "" then initial.value.id else freshId)
      && saved.value.enabled == (initial.None? || initial.value.enabled)
  {
    if Trim(name) == "" then None
    else
      Some(Filter(
        if initial.Some? && initial.value.id != "" then initial.value.id else freshId,
        Trim(name),
        if initial.Some? then initial.value.enabled else true,
        criteria))
  }

  /** A saved name never starts or ends with whitespace. */
  lemma SavedNameTrimmed(name: string, initial: Option<Filter>, criteria: FilterCriteria, freshId: string)
    requires Trim(name) != ""
    ensures var n := HandleSave(name, initial, criteria, freshId).value.name;
      n != "" && !IsWhitespace(n[0]) && !IsWhitespace(n[|n| - 1])
  {
    TrimEdges(name);
  }
}
