# Streamgage map filters and load-time transforms

This project models the filtering core of a streamgage dashboard. The dashboard is a map of US streamgages. A user picks states, a gage category and a comma-separated list of site numbers, and the map shows the matching gages.

The model covers two source files:

- `map.py`, the `Map` widget.
  - Its parameters and their defaults.
  - The pure filters that choose which state polygons and which gage rows are drawn (`display_states`, `display_streamgages`).
  - The three button handlers: search (`_update_streamgage_input`), clear (`_clear_streamgage_input`) and reset (`_reset_map`).
- `class_app.py`, the load-time transforms applied to the data after it is read.
  - The state table drops the configured states. Its list of names is de-duplicated and sorted.
  - The gage table keeps only the reference-class (`'Ref'`) gages.

Modules:

- `Seqs` (seqs.dfy) provides boolean-mask row selection (`Filter`), the subsequence relation, de-duplication (`Unique`), and duplicate freedom.
- `Text` (text.dfy) models Python's `str.strip()` and `str.split(',')`, with their round trip. It also models Python's code-point string order, proved to be a total order, and the sort `list.sort()` performs on a list of strings.
- `Gages` (gages.dfy) holds the record types. A location is an abstract point. A state polygon is the set of points it covers, so "point in polygon" becomes set membership.
- `MapFilters` (map_filters.dfy) defines `display_states` and `display_streamgages` as functions of the tables and the selections. Lemmas state the precedence rules.
- `MapWidget` (map_widget.dfy) specifies the widget's parameters as the value `MapState`, with pure transitions for search, clear and reset. The class `Map` keeps the same parameters in mutable fields. Its handler methods are proved to perform those transitions and to keep the widget invariant: the committed search holds only digits, commas and spaces.
- `AppData` (app_data.dfy) models `_get_state_data` and `_get_streamgage_data` after the file read.

Two configuration values come from a `config` module that is not part of this model. The gage-type choices (`STREAMGAGE_SUBSET`) become the table's column set plus the type-filter parameter. The state exclusion list (`EX_STATES`) becomes the `exStates` parameter.

Points of the code the model keeps exactly:

- A gage is kept by the category filter when its indicator cell `== 1` (map.py:97), not when it is merely truthy.
- Gage rows with missing fields are not dropped at load time. The only load filter is `gagesII_class == 'Ref'` (class_app.py:57).
- A type filter that names a column the table lacks is an error (map.py:97). pandas raises `KeyError`, which the model returns as `Err(UnknownColumn(..))`.

## Model

| member | source | states |
|---|---|---|
| `Text.StripLeft` | map.py:92 | the result is the suffix of the input after its maximal run of leading whitespace; everything removed is whitespace and the result does not start with whitespace |
| `Text.StripRight` | map.py:92 | the result is the prefix of the input before its maximal run of trailing whitespace; everything removed is whitespace and the result does not end with whitespace |
| `Text.IsPyWhitespace` | map.py:92 | space, tab and newline count as whitespace for `strip()`; a comma or a decimal digit never does |
| `Text.Strip` | map.py:92 | the stripped piece is the window of the input that starts where `lstrip` stops: everything before and after it is whitespace, and the piece neither starts nor ends with whitespace |
| `Text.StripKeepsWindow` | map.py:92 | stripping both ends keeps the characters of a contiguous window of the input, unchanged and in order |
| `Text.StripDropsTrailing` | map.py:92 | every character after that window is whitespace |
| `Text.StripAllWhitespace` | map.py:92 | a piece made only of whitespace (e.g. spaces) strips to the empty string |
| `Text.StripUnpadded` | map.py:92 | a piece with no whitespace at either end strips to itself |
| `Text.IndexOf` | map.py:92 | the index found holds the separator and no earlier position does |
| `Text.IndexOfFirst` | map.py:92 | the first separator position is the one with no separator before it |
| `Text.Split` | map.py:92 | splitting on ',' gives at least one piece, no piece contains ',', and every character of a piece comes from the input |
| `Text.JoinSplit` | map.py:92 | joining the pieces of `s.split(',')` with ',' gives back `s` |
| `Text.SplitJoin` | map.py:92 | splitting the ','-join of comma-free pieces gives back exactly those pieces |
| `Text.StripEach` | map.py:92 | the comprehension yields one stripped piece per input piece, in order |
| `Text.StrLeq` | class_app.py:39 | a string is ordered no later than any string it is a prefix of, and a string no greater than one of its own prefixes is that prefix |
| `Text.StrLeqTotal` | class_app.py:39 | any two state names are comparable under Python's string order |
| `Text.StrLeqAntisymmetric` | class_app.py:39 | two names each no greater than the other are equal |
| `Text.StrLeqTransitive` | class_app.py:39 | Python's string order is transitive |
| `Text.SortedPairwise` | class_app.py:39 | in a sorted list every earlier name is no greater than every later name |
| `Text.Insert` | class_app.py:39 | inserting into a sorted list keeps it sorted and adds exactly that one element |
| `Text.Sort` | class_app.py:39 | `list.sort()` leaves the list sorted ascending and a permutation of its input |
| `Text.InsertDistinct` | class_app.py:38-39 | inserting a new name into a duplicate-free sorted list keeps it duplicate-free |
| `Text.SortDistinct` | class_app.py:38-39 | sorting a duplicate-free list keeps it duplicate-free |
| `Seqs.Filter` | class_app.py:36 | boolean-mask selection keeps exactly the rows satisfying the mask, each as many times as it occurs in the table, and drops every other row |
| `Seqs.FilterIsSubseq` | class_app.py:36 | a mask selection is a subsequence of the table: no row invented or reordered |
| `Seqs.Unique` | class_app.py:38 | `unique()` returns each value of the column exactly once and nothing else |
| `MapFilters.SelectStates` | map.py:63 | `states[states['shapeName'].isin(select)]` keeps exactly the states whose name is selected, each as often as in the table, in table order |
| `MapFilters.DisplayStates` | map.py:62-65 | the drawn states are exactly those whose name is selected (each as often as in the table, in table order), or all states, unchanged, when the selection is empty |
| `MapFilters.IdList` | map.py:92 | an id is in the search list iff it is the stripped form of some comma-separated piece of the search string |
| `MapFilters.MatchIds` | map.py:93 | `isin(id_list)` keeps exactly the rows whose `site_no` is in the list, each as often as in the table, as a subsequence of the table |
| `MapFilters.KeepFlagged` | map.py:97 | keeps exactly the rows whose indicator cell in the chosen column equals 1, each as often as in the table, as a subsequence of the table |
| `MapFilters.ByCategory` | map.py:95-99 | "all" keeps the table unchanged; any other value keeps exactly the rows flagged 1 in that column, each as often as in the table, in table order |
| `MapFilters.Clip` | map.py:102-105 | the clip keeps exactly the gages lying in the polygon of some selected state, each as often as before the clip, and drops every other gage |
| `MapFilters.ClipIdempotent` | map.py:104 | clipping an already clipped set to the same selection yields the same gages with the same multiplicities |
| `MapFilters.DisplayStreamgages` | map.py:81-105 | the display fails exactly when no search is active and the type filter names a column the table lacks; every displayed gage is a row of the base table |
| `MapFilters.IdSearchResult` | map.py:91-93 | with a non-empty search string the result succeeds and is the subsequence of base rows whose `site_no` equals some stripped piece, each as often as in the table, in table order |
| `MapFilters.IdSearchPrecedence` | map.py:91-99 | with a non-empty search string, the type filter and the state selection do not affect the result |
| `MapFilters.BlankSearchShowsNothing` | map.py:91-93 | a search string of spaces only is a search for the one id "" and shows no gage |
| `MapFilters.CategoryFilterResult` | map.py:95-97 | without a search, every displayed gage is a base gage flagged 1 in the filter column; with no states selected they are exactly those gages, each as often as in the table, in table order |
| `MapFilters.UnfilteredShowsAll` | map.py:98-99 | with no search, type filter "all" and no state selected, the full base table is displayed |
| `MapFilters.StateClipResult` | map.py:102-105 | without a search, a non-empty selection keeps exactly the category-step gages in some selected state, each as often as the category step yields it; an empty selection applies no clip |
| `MapWidget.IsSearchText` | map.py:143 | the text passes the check iff every character in it is a digit, a comma or a space |
| `MapWidget.FindInvalidChar` | map.py:143 | `re.search('[^0-9, ]', s)` finds nothing iff every character is a digit, comma or space; otherwise it finds the leftmost other character |
| `MapWidget.KeptOnReset` | map.py:176 | exactly five parameters are reset: `state_select`, `basemap_select`, `streamgage_type_filter`, `streamgage_id_input` and `streamgage_id_string` |
| `MapWidget.Initial` | map.py:25-34 | a fresh widget keeps the search invariant, draws every state and displays the whole base gage table |
| `MapWidget.SetDefaultEffect` | map.py:177 | `setattr(self, p, default)` sets the field of `p` to its declared default and changes no other field |
| `MapWidget.ResetStep` | map.py:176-177 | an excluded parameter is skipped, and no iteration touches the name or the two tables |
| `MapWidget.ResetParams` | map.py:174-177 | the reset loop over any parameter list never touches the name or the two tables |
| `MapWidget.ResetStepEffect` | map.py:176-177 | one loop iteration resets at most the field of the parameter it visits, and only when that parameter is not excluded |
| `MapWidget.ResetParamsEffect` | map.py:174-177 | the reset loop over any parameter list sets exactly the listed resettable parameters to their defaults and leaves every other field as it was |
| `MapWidget.ResetState` | map.py:174-177 | after reset the widget equals a freshly built one for the same name and tables: `state_select=[]`, `basemap_select="OSM"`, `streamgage_type_filter="all"`, both id strings `""` |
| `MapWidget.ResetIdempotent` | map.py:174-177 | resetting twice is the same as resetting once |
| `MapWidget.ResetShowsAllGages` | map.py:174-177 | after reset the whole base gage table is displayed |
| `MapWidget.CommitSearch` | map.py:143-146 | the search string becomes the text-box content when that content holds only digits, commas and spaces; a rejected commit changes nothing; no other field changes and the search invariant is kept |
| `MapWidget.EmptyCommitClearsSearch` | map.py:143-146 | committing an empty text box clears the search, so the type filter and state selection decide the display again |
| `MapWidget.ClearSearch` | map.py:159-160 | clear sets both the search string and the text box to "", changes no other field, keeps the search invariant and hands the display back to the other filters |
| `MapWidget.Displayed` | map.py:81-105 | the widget displays only base rows, and never fails while a search is committed |
| `MapWidget.StrippedPieceShape` | map.py:92 | a comma-free piece of valid search text strips to digits and inner spaces, with no space at either end |
| `MapWidget.SearchPiecesAreDigits` | map.py:92-93 | every id searched for after a valid commit consists of digits and inner spaces only |
| `MapWidget.SearchSafeInvariant` | map.py:31 | the search string starts as "" and search, clear and reset all keep it free of anything but digits, commas and spaces |
| `MapWidget.Map.constructor` | map.py:25-47 | a new widget holds the given tables and every other parameter at its declared default |
| `MapWidget.Map.UpdateStreamgageInput` | map.py:132-146 | warns iff the text box holds a character other than digit, comma or space; otherwise commits it; the widget invariant is kept |
| `MapWidget.Map.DisplayedStates` | map.py:53-66 | the widget draws exactly the states whose name is selected, or every state when none is |
| `MapWidget.Map.DisplayedStreamgages` | map.py:81-105 | the widget displays only base rows, and never fails while a search is committed |
| `MapWidget.Map.ClearStreamgageInput` | map.py:149-160 | empties the search string and the text box and changes nothing else |
| `MapWidget.Map.SetToDefault` | map.py:177 | sets one resettable parameter to its declared default and nothing else |
| `MapWidget.Map.ResetMap` | map.py:163-177 | the loop over all parameters skips the excluded six and leaves the widget at its initial state for the same tables |
| `AppData.ExcludeStates` | class_app.py:36 | keeps exactly the state rows whose name is not excluded, each as often as in the file, as a subsequence of the file's rows |
| `AppData.ShapeNames` | class_app.py:38 | the name column lists each row's `shapeName` in row order |
| `AppData.ShapeNamesMembers` | class_app.py:38 | a name occurs in the column iff some row carries it |
| `AppData.GetStateData` | class_app.py:35-41 | the retained rows are the file's rows without excluded names, each as often as in the file, in file order; the name list is sorted and duplicate-free, and holds a name iff some retained row has it |
| `AppData.ExcludedStatesAbsent` | class_app.py:36 | an excluded name appears neither in the retained rows nor in the name list |
| `AppData.StateListStrictlyAscending` | class_app.py:38-39 | every earlier name in the list is strictly less than every later one |
| `AppData.GetStreamgageData` | class_app.py:57 | keeps exactly the rows with `gagesII_class == 'Ref'`, each as often as in the file, in file order, with the columns unchanged |
| `AppData.AllReferenceKept` | class_app.py:57 | a table whose rows are all reference gages is returned whole |

## Left out

- Rendering and plotting are not modelled: `gv.Points`/`gv.Polygons`, `.opts`, `display_basemap`, `view`, `map_plot_opts` and `export_to_png`. These are presentation code in foreign libraries. `display_states` and `display_streamgages` are modelled by the rows they select.
- The warning notification (map.py:144) is modelled only as the boolean `warned` that `UpdateStreamgageInput` returns.
- The `Selection1D` stream, its source assignment and the `print` (map.py:35, 47, 114-115) are left out. They are framework wiring and console output.
- The geometric clip (`GeoDataFrame.clip`) is abstracted. A location is an opaque point, a polygon is the set of points it covers, and the clip is membership in the union of the selected polygons. Floating-point geometry is not modelled.
- MapFilters.Clip: its contract promises membership and multiplicity, not row order. The function keeps table order, but geopandas does not promise an order after a clip.
- File reading, dtype conversion, point-geometry construction and the CRS (class_app.py:35, 54, 59-62) are I/O and floating-point coordinates. The model starts from the rows as read. A file lacking a required column fails to load, which the model does not represent.
- Module-level application wiring (class_app.py:65-92) is left out. This includes handing the sorted state list to the state selector as its choices (line 74), the page template and serving.
- flow.py is not part of this model. It holds the streamflow fetch over the network, plotting, and event-loop patching.
- Reactive dispatch (`@param.depends(..., watch=True)`) is framework behaviour. The handlers are explicit methods. The displayed rows are computed on demand (`Map.DisplayedStreamgages`), not pushed on every change.
- Parameter validation by the framework is not modelled: the type filter limited to its choices, and the state selection limited to the state list. User edits to the selection parameters are plain field assignments.
- The widget's `name` is generated by the framework. Here it is a constructor argument.
- The button events carry no value in the model.
- Reset assigns the shared default list object to `state_select`. Aliasing of that object is not modelled; the model assigns a fresh empty sequence.
- class_app.py:70-72 only build the flow plot (`FlowPlot()`, from flow.py) and hold commented-out tap wiring. They are not modelled.
