/** The map widget's parameters and its three button handlers (map.py):
    committing the search text, clearing it, and resetting the map. The
    widget's state is specified by the value type `MapState` and its pure
    transitions; the class `Map` holds the same state in mutable fields and
    its methods are proved to perform those transitions. */
module MapWidget {

  import opened Gages
  import opened MapFilters

  datatype Option<T> = None | Some(value: T)

  /** A character the search box accepts: a decimal digit, a comma or a space. */
  predicate IsSearchChar(c: char)
  {
    '0' <= c <= '9' || c == ',' || c == ' '
  }

  /** The text contains no match of the pattern `[^0-9, ]`. */
  predicate IsSearchText(s: string)
    ensures IsSearchText(s) <==> forall c :: c in s ==> IsSearchChar(c)
  {
    forall i :: 0 <= i < |s| ==> IsSearchChar(s[i])
  }

  /** `re.search('[^0-9, ]', s)`: the position of the leftmost character
      outside digits, commas and spaces, or None when there is none. */
  method FindInvalidChar(s: string) returns (m: Option<nat>)
    ensures m.None? <==> IsSearchText(s)
    ensures m.Some? ==> m.value < |s| && !IsSearchChar(s[m.value]) && IsSearchText(s[..m.value])
  {
    var i := 0;
    while i < |s|
      invariant 0 <= i <= |s|
      invariant IsSearchText(s[..i])
    {
      if !IsSearchChar(s[i]) {
        return Some(i);
      }
      assert s[..i + 1] == s[..i] + [s[i]];
      i := i + 1;
    }
    assert s[..i] == s;
    return None;
  }

  /** The widget's parameters, in the order the parameter set lists them:
      the implicit `name` first, then the declarations. */
  datatype ParamName =
    | Name | States | Streamgages | StateSelect | BasemapSelect | StreamgageTypeFilter
    | StreamgageIdInput | StreamgageIdString
    | SearchStreamgageIdInput | ClearStreamgageIdInput | ResetMapEvent

  const MapParams: seq<ParamName> := [
    Name, States, Streamgages, StateSelect, BasemapSelect, StreamgageTypeFilter,
    StreamgageIdInput, StreamgageIdString,
    SearchStreamgageIdInput, ClearStreamgageIdInput, ResetMapEvent]

  /** The parameters the reset handler leaves alone: the name, the two data
      tables and the three button events. */
  predicate KeptOnReset(p: ParamName)
    ensures !KeptOnReset(p) <==>
      p in {StateSelect, BasemapSelect, StreamgageTypeFilter, StreamgageIdInput, StreamgageIdString}
  {
    match p
    case Name | States | Streamgages | SearchStreamgageIdInput | ClearStreamgageIdInput | ResetMapEvent => true
    case _ => false
  }

  const DefaultBasemap: string := "OSM"

  /** The value of the widget's parameters (the button events carry no value). */
  datatype MapState = MapState(
    name: string,
    states: seq<StateFeature>,
    streamgages: GageFrame,
    stateSelect: seq<string>,
    basemapSelect: string,
    typeFilter: string,
    idInput: string,
    idString: string)

  /** A freshly built widget: the given tables, every other parameter at its
      declared default. */
  function Initial(name: string, states: seq<StateFeature>, streamgages: GageFrame): (r: MapState)
    ensures SearchSafe(r)
    ensures Displayed(r) == Ok(streamgages.rows)
    ensures DisplayStates(r.states, r.stateSelect) == states
  {
    MapState(name, states, streamgages, [], DefaultBasemap, All, "", "")
  }

  /** The widget invariant: the committed search only holds search characters. */
  predicate SearchSafe(s: MapState)
  {
    IsSearchText(s.idString)
  }

  /** `setattr(self, p, self.param[p].default)` for a resettable parameter. */
  function SetDefault(s: MapState, p: ParamName): (r: MapState)
    requires !KeptOnReset(p)
  {
    match p
    case StateSelect => s.(stateSelect := [])
    case BasemapSelect => s.(basemapSelect := DefaultBasemap)
    case StreamgageTypeFilter => s.(typeFilter := All)
    case StreamgageIdInput => s.(idInput := "")
    case StreamgageIdString => s.(idString := "")
    case _ => s
  }

  /** Setting one parameter to its default changes that field and no other. */
  lemma SetDefaultEffect(s: MapState, p: ParamName)
    requires !KeptOnReset(p)
    ensures var r := SetDefault(s, p);
      r.name == s.name && r.states == s.states && r.streamgages == s.streamgages &&
      r.stateSelect == (if p == StateSelect then [] else s.stateSelect) &&
      r.basemapSelect == (if p == BasemapSelect then DefaultBasemap else s.basemapSelect) &&
      r.typeFilter == (if p == StreamgageTypeFilter then All else s.typeFilter) &&
      r.idInput == (if p == StreamgageIdInput then "" else s.idInput) &&
      r.idString == (if p == StreamgageIdString then "" else s.idString)
  {
  }

  /** One iteration of the reset loop: a kept parameter is left alone, and
      the name and the two tables are never touched. */
  function ResetStep(s: MapState, p: ParamName): (r: MapState)
    ensures KeptOnReset(p) ==> r == s
    ensures r.name == s.name && r.states == s.states && r.streamgages == s.streamgages
  {
    if KeptOnReset(p) then s else SetDefault(s, p)
  }

  /** One iteration of the reset loop sets at most the field of `p`. */
  lemma ResetStepEffect(s: MapState, p: ParamName)
    ensures var t := ResetStep(s, p);
      t.name == s.name && t.states == s.states && t.streamgages == s.streamgages &&
      t.stateSelect == (if p == StateSelect then [] else s.stateSelect) &&
      t.basemapSelect == (if p == BasemapSelect then DefaultBasemap else s.basemapSelect) &&
      t.typeFilter == (if p == StreamgageTypeFilter then All else s.typeFilter) &&
      t.idInput == (if p == StreamgageIdInput then "" else s.idInput) &&
      t.idString == (if p == StreamgageIdString then "" else s.idString)
  {
    if !KeptOnReset(p) {
      SetDefaultEffect(s, p);
    }
  }

  /** The reset loop run over the parameters `ps`, in order. Whatever the
      parameters, it never touches the name or the two tables. */
  function ResetParams(s: MapState, ps: seq<ParamName>): (r: MapState)
    ensures r.name == s.name && r.states == s.states && r.streamgages == s.streamgages
  {
    if ps == [] then s else ResetStep(ResetParams(s, ps[..|ps| - 1]), ps[|ps| - 1])
  }

  /** Running the reset loop over `ps` sets exactly the resettable
      parameters listed in `ps` to their defaults, whatever their order, and
      leaves every other field as it was. */
  lemma {:induction false} ResetParamsEffect(s: MapState, ps: seq<ParamName>)
    ensures var r := ResetParams(s, ps);
      r.name == s.name && r.states == s.states && r.streamgages == s.streamgages
    ensures ResetParams(s, ps).stateSelect == if StateSelect in ps then [] else s.stateSelect
    ensures ResetParams(s, ps).basemapSelect == if BasemapSelect in ps then DefaultBasemap else s.basemapSelect
    ensures ResetParams(s, ps).typeFilter == if StreamgageTypeFilter in ps then All else s.typeFilter
    ensures ResetParams(s, ps).idInput == if StreamgageIdInput in ps then "" else s.idInput
    ensures ResetParams(s, ps).idString == if StreamgageIdString in ps then "" else s.idString
  {
    if ps != [] {
      var init := ps[..|ps| - 1];
      var last := ps[|ps| - 1];
      ResetParamsEffect(s, init);
      assert ps == init + [last];
      assert forall p :: p in ps <==> p in init || p == last by {
        forall p ensures p in ps <==> p in init || p == last {
          assert p in ps <==> p in init + [last];
        }
      }
      assert ResetParams(s, ps) == ResetStep(ResetParams(s, init), last);
      ResetStepEffect(ResetParams(s, init), last);
    }
  }

  /** Running the loop one parameter further is one more step: the state
      after the loop over `ps[..i]`, with the parameter `ps[i]` set to its
      default unless it is kept, is the state after the loop over
      `ps[..i + 1]`. */
  lemma ResetParamsSnoc(s: MapState, ps: seq<ParamName>, i: nat, before: MapState, after: MapState)
    requires i < |ps| && before == ResetParams(s, ps[..i])
    requires after == if KeptOnReset(ps[i]) then before else SetDefault(before, ps[i])
    ensures after == ResetParams(s, ps[..i + 1])
  {
    assert ps[..i + 1][..i] == ps[..i];
  }

  /** `_reset_map`: the reset loop over every parameter of the widget. It
      puts every resettable parameter back to its default and keeps the name
      and both tables: the widget as freshly built from them. */
  function ResetState(s: MapState): (r: MapState)
    ensures r == Initial(s.name, s.states, s.streamgages)
  {
    ResetParamsEffect(s, MapParams);
    ResetParams(s, MapParams)
  }

  /** `_update_streamgage_input`: commit the search text when it only holds
      search characters, otherwise keep the committed search. */
  function CommitSearch(s: MapState): (r: MapState)
    ensures IsSearchText(s.idInput) ==> r.idString == s.idInput
    ensures !IsSearchText(s.idInput) ==> r == s
    ensures r.(idString := s.idString) == s
    ensures SearchSafe(s) ==> SearchSafe(r)
  {
    if IsSearchText(s.idInput) then s.(idString := s.idInput) else s
  }

  /** `_clear_streamgage_input`: empty the committed search and the text
      box, handing display back to the other filters. */
  function ClearSearch(s: MapState): (r: MapState)
    ensures r.idString == "" && r.idInput == ""
    ensures r.(idString := s.idString, idInput := s.idInput) == s
    ensures SearchSafe(r)
    ensures Displayed(r) == DisplayStreamgages(s.streamgages, s.states, s.stateSelect, s.typeFilter, "")
  {
    s.(idString := "", idInput := "")
  }

  /** The rows the widget currently displays: base rows only, and never a
      failure while a search is committed. */
  function Displayed(s: MapState): (r: Result<seq<GageRecord>>)
    ensures s.idString != "" ==> r.Ok?
    ensures r.Ok? ==> forall g :: g in r.value ==> g in s.streamgages.rows
  {
    DisplayStreamgages(s.streamgages, s.states, s.stateSelect, s.typeFilter, s.idString)
  }

  /** Resetting twice is resetting once. */
  lemma ResetIdempotent(s: MapState)
    ensures ResetState(ResetState(s)) == ResetState(s)
  {
  }

  /** After a reset every base gage is displayed, in table order. */
  lemma ResetShowsAllGages(s: MapState)
    ensures Displayed(ResetState(s)) == Ok(s.streamgages.rows)
  {
  }

  /** Committing an empty text box clears the search, so the type filter
      and the state selection decide again. */
  lemma EmptyCommitClearsSearch(s: MapState)
    requires s.idInput == ""
    ensures Displayed(CommitSearch(s)) == DisplayStreamgages(s.streamgages, s.states, s.stateSelect, s.typeFilter, "")
  {
  }

  /** An id as a valid search can produce it: digits and inner spaces
      only, with no space at either end. */
  predicate IsIdShape(id: string)
  {
    (forall i :: 0 <= i < |id| ==> '0' <= id[i] <= '9' || id[i] == ' ') &&
    (id != [] ==> id[0] != ' ' && id[|id| - 1] != ' ')
  }

  /** A comma-free piece of search text strips to digits and inner spaces. */
  lemma StrippedPieceShape(piece: string)
    requires forall i :: 0 <= i < |piece| ==> IsSearchChar(piece[i]) && piece[i] != ','
    ensures IsIdShape(Text.Strip(piece))
  {
    var id := Text.Strip(piece);
    forall i | 0 <= i < |id| ensures '0' <= id[i] <= '9' || id[i] == ' ' {
      assert id[i] in piece;
    }
    assert Text.IsPyWhitespace(' ');
  }

  /** A committed search splits into pieces of digits and inner spaces
      only: no piece holds a comma or starts or ends with a space. */
  lemma SearchPiecesAreDigits(idString: string)
    requires IsSearchText(idString)
    ensures forall id :: id in IdList(idString) ==> IsIdShape(id)
  {
    var parts := Text.Split(idString, ',');
    forall k | 0 <= k < |parts| ensures IsIdShape(Text.Strip(parts[k])) {
      forall i | 0 <= i < |parts[k]| ensures IsSearchChar(parts[k][i]) && parts[k][i] != ',' {
        assert parts[k][i] in idString;
      }
      StrippedPieceShape(parts[k]);
    }
  }

  /** The committed search never holds anything but digits, commas and
      spaces: it starts empty and every handler keeps it so. */
  lemma SearchSafeInvariant(s: MapState, name: string, states: seq<StateFeature>, streamgages: GageFrame)
    ensures SearchSafe(Initial(name, states, streamgages))
    ensures SearchSafe(s) ==> SearchSafe(CommitSearch(s)) && SearchSafe(ClearSearch(s))
    ensures SearchSafe(ResetState(s))
  {
  }

  /** The map widget. Its fields are the parameters that carry a value; the
      handlers below are the methods the button events trigger. */
  class Map {
    const name: string
    var states: seq<StateFeature>
    var streamgages: GageFrame
    var stateSelect: seq<string>
    var basemapSelect: string
    var streamgageTypeFilter: string
    var streamgageIdInput: string
    var streamgageIdString: string

    function Snapshot(): MapState
      reads this
    {
      MapState(name, states, streamgages, stateSelect, basemapSelect,
               streamgageTypeFilter, streamgageIdInput, streamgageIdString)
    }

    predicate Valid()
      reads this
    {
      SearchSafe(Snapshot())
    }

    /** `Map(states=..., streamgages=...)`: the tables as given, every
        other parameter at its default. */
    constructor (name: string, states: seq<StateFeature>, streamgages: GageFrame)
      ensures Valid()
      ensures Snapshot() == Initial(name, states, streamgages)
    {
      this.name := name;
      this.states := states;
      this.streamgages := streamgages;
      stateSelect := [];
      basemapSelect := DefaultBasemap;
      streamgageTypeFilter := All;
      streamgageIdInput := "";
      streamgageIdString := "";
    }

    /** `display_states` on the current selection. */
    function DisplayedStates(): (r: seq<StateFeature>)
      reads this
      ensures forall s :: s in r <==> s in states && (stateSelect == [] || s.shapeName in stateSelect)
      ensures stateSelect == [] ==> r == states
    {
      DisplayStates(states, stateSelect)
    }

    /** `display_streamgages` on the current selections. */
    function DisplayedStreamgages(): (r: Result<seq<GageRecord>>)
      reads this
      ensures streamgageIdString != "" ==> r.Ok?
      ensures r.Ok? ==> forall g :: g in r.value ==> g in streamgages.rows
    {
      Displayed(Snapshot())
    }

    /** Search button: commit the text box, or warn (returning true) and
        keep the committed search when it holds a character other than a
        digit, comma or space. */
    method UpdateStreamgageInput() returns (warned: bool)
      requires Valid()
      modifies this
      ensures Valid()
      ensures warned <==> !IsSearchText(old(streamgageIdInput))
      ensures Snapshot() == CommitSearch(old(Snapshot()))
    {
      var m := FindInvalidChar(streamgageIdInput);
      if m.Some? {
        warned := true;
      } else {
        streamgageIdString := streamgageIdInput;
        warned := false;
      }
    }

    /** Clear button: empty the committed search and the text box. */
    method ClearStreamgageInput()
      requires Valid()
      modifies this
      ensures Valid()
      ensures Snapshot() == ClearSearch(old(Snapshot()))
    {
      streamgageIdString := "";
      streamgageIdInput := "";
    }

    /** `setattr(self, p, default)` for one resettable parameter. */
    method SetToDefault(p: ParamName)
      requires !KeptOnReset(p)
      modifies this
      ensures Snapshot() == SetDefault(old(Snapshot()), p)
    {
      match p
      case StateSelect => stateSelect := [];
      case BasemapSelect => basemapSelect := DefaultBasemap;
      case StreamgageTypeFilter => streamgageTypeFilter := All;
      case StreamgageIdInput => streamgageIdInput := "";
      case StreamgageIdString => streamgageIdString := "";
      case _ =>
    }

    /** Reset button: every parameter not kept on reset goes back to its
        default, one parameter at a time. */
    method ResetMap()
      requires Valid()
      modifies this
      ensures Valid()
      ensures Snapshot() == ResetState(old(Snapshot()))
    {
      var i := 0;
      while i < |MapParams|
        invariant 0 <= i <= |MapParams|
        invariant Snapshot() == ResetParams(old(Snapshot()), MapParams[..i])
      {
        var p := MapParams[i];
        ghost var before := Snapshot();
        if !KeptOnReset(p) {
          SetToDefault(p);
        }
        ResetParamsSnoc(old(Snapshot()), MapParams, i, before, Snapshot());
        i := i + 1;
      }
      assert MapParams[..i] == MapParams;
      assert Snapshot() == ResetState(old(Snapshot()));
    }
  }
}
