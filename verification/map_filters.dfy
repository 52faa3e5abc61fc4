/** The pure filters of the map widget (map.py): which state polygons are
    drawn and which streamgage rows are displayed, given the widget's
    selections. Each is a function of the base tables and the selections,
    recomputed on demand. */
module MapFilters {

  import opened Seqs
  import opened Text
  import opened Gages

  /** The type-filter value that disables the category filter. */
  const All: string := "all"

  /** Indexing a frame with a column it does not have raises `KeyError`. */
  datatype FilterError = UnknownColumn(column: string)

  datatype Result<T> = Ok(value: T) | Err(error: FilterError)

  /** The states whose `shapeName` is one of the selected names
      (`states[states['shapeName'].isin(select)]`). */
  function SelectStates(states: seq<StateFeature>, select: seq<string>): (r: seq<StateFeature>)
    ensures forall s :: s in r <==> s in states && s.shapeName in select
    ensures forall s :: multiset(r)[s] == if s.shapeName in select then multiset(states)[s] else 0
    ensures IsSubseq(r, states)
  {
    FilterIsSubseq(states, (s: StateFeature) => s.shapeName in select);
    Filter(states, (s: StateFeature) => s.shapeName in select)
  }

  /** `display_states`: the selected states, or every state when nothing
      is selected. */
  function DisplayStates(states: seq<StateFeature>, select: seq<string>): (r: seq<StateFeature>)
    ensures forall s :: s in r <==> s in states && (select == [] || s.shapeName in select)
    ensures forall s :: multiset(r)[s] == if select == [] || s.shapeName in select then multiset(states)[s] else 0
    ensures IsSubseq(r, states)
    ensures select == [] ==> r == states
  {
    if |select| > 0 then SelectStates(states, select)
    else
      FilterKeepsAll(states, (s: StateFeature) => true);
      FilterIsSubseq(states, (s: StateFeature) => true);
      states
  }

  /** The search list: the search string split on commas, each piece
      stripped of surrounding whitespace. */
  function IdList(idString: string): (ids: seq<string>)
    ensures |ids| >= 1
    ensures forall id :: id in ids <==> exists k :: 0 <= k < |Split(idString, ',')| && id == Strip(Split(idString, ',')[k])
  {
    var ids := StripEach(Split(idString, ','));
    assert forall k :: 0 <= k < |ids| ==> ids[k] == Strip(Split(idString, ',')[k]);
    ids
  }

  /** The rows whose `site_no` is in the search list
      (`streamgages['site_no'].isin(ids)`), in table order. */
  function MatchIds(rows: seq<GageRecord>, ids: seq<string>): (r: seq<GageRecord>)
    ensures forall g :: g in r <==> g in rows && g.siteNo in ids
    ensures forall g :: multiset(r)[g] == if g.siteNo in ids then multiset(rows)[g] else 0
    ensures IsSubseq(r, rows)
  {
    FilterIsSubseq(rows, (g: GageRecord) => g.siteNo in ids);
    Filter(rows, (g: GageRecord) => g.siteNo in ids)
  }

  /** The rows whose indicator column `column` equals 1. */
  function KeepFlagged(rows: seq<GageRecord>, column: string): (r: seq<GageRecord>)
    ensures forall g :: g in r <==> g in rows && HasFlag(g, column)
    ensures forall g :: multiset(r)[g] == if HasFlag(g, column) then multiset(rows)[g] else 0
    ensures IsSubseq(r, rows)
  {
    FilterIsSubseq(rows, (g: GageRecord) => HasFlag(g, column));
    Filter(rows, (g: GageRecord) => HasFlag(g, column))
  }

  /** The gage lies in the polygon of some selected state. */
  predicate InSelectedStates(g: GageRecord, states: seq<StateFeature>, select: seq<string>)
  {
    exists s :: s in SelectStates(states, select) && InState(g, s)
  }

  /** The spatial clip of `rows` to the union of the selected states'
      polygons. Membership and multiplicity are promised: the order of a
      clipped frame is not part of the model's claims. */
  function Clip(rows: seq<GageRecord>, states: seq<StateFeature>, select: seq<string>): (r: seq<GageRecord>)
    ensures forall g :: g in r <==> g in rows && InSelectedStates(g, states, select)
    ensures forall g :: multiset(r)[g] == if InSelectedStates(g, states, select) then multiset(rows)[g] else 0
    ensures |r| <= |rows|
  {
    Filter(rows, (g: GageRecord) => InSelectedStates(g, states, select))
  }

  /** Clipping an already clipped set to the same selection changes nothing. */
  lemma ClipIdempotent(rows: seq<GageRecord>, states: seq<StateFeature>, select: seq<string>)
    ensures multiset(Clip(Clip(rows, states, select), states, select)) == multiset(Clip(rows, states, select))
  {
    FilterIdempotent(rows, (g: GageRecord) => InSelectedStates(g, states, select));
  }

  /** The category step: rows flagged in `typeFilter`, or every row for "all". */
  function ByCategory(rows: seq<GageRecord>, typeFilter: string): (r: seq<GageRecord>)
    ensures typeFilter == All ==> r == rows
    ensures typeFilter != All ==> forall g :: g in r <==> g in rows && HasFlag(g, typeFilter)
    ensures typeFilter != All ==> forall g :: multiset(r)[g] == if HasFlag(g, typeFilter) then multiset(rows)[g] else 0
    ensures IsSubseq(r, rows)
  {
    if typeFilter != All then KeepFlagged(rows, typeFilter)
    else
      FilterKeepsAll(rows, (g: GageRecord) => true);
      FilterIsSubseq(rows, (g: GageRecord) => true);
      rows
  }

  /** `display_streamgages`: the rows to draw. A non-empty search string
      decides alone; otherwise the category filter applies, then the clip
      to the selected states when any are selected. The only failure is a
      category filter naming a column the table does not have, which can
      happen only when no search is active; displayed rows are always base
      rows. */
  function DisplayStreamgages(frame: GageFrame, states: seq<StateFeature>, stateSelect: seq<string>,
                              typeFilter: string, idString: string): (r: Result<seq<GageRecord>>)
    ensures r.Err? <==> idString == "" && typeFilter != All && typeFilter !in frame.columns
    ensures r.Ok? ==> forall g :: g in r.value ==> g in frame.rows
  {
    if |idString| > 0 then Ok(MatchIds(frame.rows, IdList(idString)))
    else if typeFilter != All && typeFilter !in frame.columns then Err(UnknownColumn(typeFilter))
    else
      var cat := ByCategory(frame.rows, typeFilter);
      if |stateSelect| > 0 then Ok(Clip(cat, states, stateSelect)) else Ok(cat)
  }

  /** A non-empty search shows exactly the rows whose `site_no` equals a
      stripped piece of the search string (see `IdList`), in table order. */
  lemma IdSearchResult(frame: GageFrame, states: seq<StateFeature>, stateSelect: seq<string>,
                       typeFilter: string, idString: string)
    requires |idString| > 0
    ensures var r := DisplayStreamgages(frame, states, stateSelect, typeFilter, idString);
      r.Ok? && IsSubseq(r.value, frame.rows) &&
      (forall g :: g in r.value <==> g in frame.rows && g.siteNo in IdList(idString)) &&
      forall g :: multiset(r.value)[g] == if g.siteNo in IdList(idString) then multiset(frame.rows)[g] else 0
  {
  }

  /** A non-empty search ignores the type filter and the state selection. */
  lemma IdSearchPrecedence(frame: GageFrame, states: seq<StateFeature>,
                           select1: seq<string>, filter1: string,
                           select2: seq<string>, filter2: string, idString: string)
    requires |idString| > 0
    ensures DisplayStreamgages(frame, states, select1, filter1, idString)
         == DisplayStreamgages(frame, states, select2, filter2, idString)
  {
  }

  /** A search string of spaces only is accepted as a search, yields the one
      piece "" and therefore shows no row (when every `site_no` is set). */
  lemma BlankSearchShowsNothing(frame: GageFrame, states: seq<StateFeature>, stateSelect: seq<string>,
                                typeFilter: string, idString: string)
    requires |idString| > 0 && forall i :: 0 <= i < |idString| ==> idString[i] == ' '
    requires forall g :: g in frame.rows ==> g.siteNo != ""
    ensures DisplayStreamgages(frame, states, stateSelect, typeFilter, idString) == Ok([])
  {
    assert ',' !in idString by {
      forall i | 0 <= i < |idString| ensures idString[i] != ',' {}
    }
    assert Split(idString, ',') == [idString];
    StripAllWhitespace(idString);
  }

  /** Without a search and with a category filter on an existing column,
      every displayed row is a base row flagged in that column; with no
      state selected they are exactly the flagged rows, in table order. */
  lemma CategoryFilterResult(frame: GageFrame, states: seq<StateFeature>, stateSelect: seq<string>,
                             typeFilter: string)
    requires typeFilter != All && typeFilter in frame.columns
    ensures var r := DisplayStreamgages(frame, states, stateSelect, typeFilter, "");
      r.Ok? &&
      (forall g :: g in r.value ==> g in frame.rows && HasFlag(g, typeFilter)) &&
      (stateSelect == [] ==>
        IsSubseq(r.value, frame.rows) &&
        (forall g :: g in r.value <==> g in frame.rows && HasFlag(g, typeFilter)) &&
        forall g :: multiset(r.value)[g] == if HasFlag(g, typeFilter) then multiset(frame.rows)[g] else 0)
  {
  }

  /** With no search, no category filter and no state selected, every
      base row is displayed, in table order. */
  lemma UnfilteredShowsAll(frame: GageFrame, states: seq<StateFeature>)
    ensures DisplayStreamgages(frame, states, [], All, "") == Ok(frame.rows)
  {
  }

  /** Without a search, a state selection keeps exactly the rows of the
      category step that lie in some selected state; an empty selection
      clips nothing. */
  lemma StateClipResult(frame: GageFrame, states: seq<StateFeature>, stateSelect: seq<string>,
                        typeFilter: string)
    requires typeFilter == All || typeFilter in frame.columns
    ensures var r := DisplayStreamgages(frame, states, stateSelect, typeFilter, "");
      r.Ok? &&
      (stateSelect != [] ==>
        (forall g :: g in r.value <==> (g in ByCategory(frame.rows, typeFilter) &&
          exists s :: s in states && s.shapeName in stateSelect && InState(g, s))) &&
        forall g :: multiset(r.value)[g] ==
          if exists s :: s in states && s.shapeName in stateSelect && InState(g, s)
          then multiset(ByCategory(frame.rows, typeFilter))[g] else 0) &&
      (stateSelect == [] ==> r.value == ByCategory(frame.rows, typeFilter))
  {
  }
}
