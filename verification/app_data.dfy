/** The load-time table transforms of the dashboard application
    (class_app.py): the state table with configured states excluded plus its
    sorted list of distinct names, and the streamgage table restricted to
    reference-class gages. The rows are taken as already read from their
    files; `exStates` is the configured exclusion list. */
module AppData {

  import opened Seqs
  import opened Text
  import opened Gages

  /** The reference class that `_get_streamgage_data` keeps. */
  const RefClass: string := "Ref"

  /** `states[~states['shapeName'].isin(exStates)]`. */
  function ExcludeStates(rows: seq<StateFeature>, exStates: seq<string>): (r: seq<StateFeature>)
    ensures forall s :: s in r <==> s in rows && s.shapeName !in exStates
    ensures forall s :: multiset(r)[s] == if s.shapeName !in exStates then multiset(rows)[s] else 0
    ensures IsSubseq(r, rows)
  {
    FilterIsSubseq(rows, (s: StateFeature) => s.shapeName !in exStates);
    Filter(rows, (s: StateFeature) => s.shapeName !in exStates)
  }

  /** The `shapeName` column. */
  function ShapeNames(rows: seq<StateFeature>): (names: seq<string>)
    ensures |names| == |rows|
    ensures forall k :: 0 <= k < |rows| ==> names[k] == rows[k].shapeName
  {
    if rows == [] then [] else [rows[0].shapeName] + ShapeNames(rows[1..])
  }

  /** A name occurs in the `shapeName` column exactly when some row has it. */
  lemma ShapeNamesMembers(rows: seq<StateFeature>, n: string)
    ensures n in ShapeNames(rows) <==> exists s :: s in rows && s.shapeName == n
  {
    var names := ShapeNames(rows);
    if n in names {
      var k :| 0 <= k < |names| && names[k] == n;
      assert rows[k] in rows;
    }
  }

  /** `_get_state_data` after the file is read: the retained rows and the
      sorted list of their distinct names. */
  function GetStateData(rows: seq<StateFeature>, exStates: seq<string>): (r: (seq<StateFeature>, seq<string>))
    ensures IsSubseq(r.0, rows)
    ensures forall s :: s in r.0 <==> s in rows && s.shapeName !in exStates
    ensures forall s :: multiset(r.0)[s] == if s.shapeName !in exStates then multiset(rows)[s] else 0
    ensures Sorted(r.1) && NoDuplicates(r.1)
    ensures forall n :: n in r.1 <==> exists s :: s in r.0 && s.shapeName == n
  {
    var kept := ExcludeStates(rows, exStates);
    var unique := Unique(ShapeNames(kept));
    var names := Sort(unique);
    SortDistinct(unique);
    assert forall n :: n in names <==> n in unique by {
      forall n ensures n in names <==> n in unique {
        assert n in names <==> n in multiset(names);
        assert n in unique <==> n in multiset(unique);
      }
    }
    assert forall n :: n in names <==> exists s :: s in kept && s.shapeName == n by {
      forall n ensures n in names <==> exists s :: s in kept && s.shapeName == n {
        ShapeNamesMembers(kept, n);
      }
    }
    (kept, names)
  }

  /** No retained state row has an excluded name, and the name list holds
      none either. */
  lemma ExcludedStatesAbsent(rows: seq<StateFeature>, exStates: seq<string>, n: string)
    requires n in exStates
    ensures var (kept, names) := GetStateData(rows, exStates);
      n !in names && forall s :: s in kept ==> s.shapeName != n
  {
  }

  /** The name list is strictly ascending: every earlier name is smaller
      than every later one. */
  lemma StateListStrictlyAscending(rows: seq<StateFeature>, exStates: seq<string>, i: nat, j: nat)
    requires var names := GetStateData(rows, exStates).1; i < j < |names|
    ensures var names := GetStateData(rows, exStates).1;
      StrLeq(names[i], names[j]) && names[i] != names[j]
  {
    var names := GetStateData(rows, exStates).1;
    SortedPairwise(names, i, j);
  }

  /** `_get_streamgage_data` after the file is read: the rows whose
      `gagesII_class` is "Ref", in file order, with the same columns. */
  function GetStreamgageData(frame: GageFrame): (r: GageFrame)
    ensures r.columns == frame.columns
    ensures forall g :: g in r.rows <==> g in frame.rows && g.gagesIIClass == RefClass
    ensures forall g :: multiset(r.rows)[g] == if g.gagesIIClass == RefClass then multiset(frame.rows)[g] else 0
    ensures IsSubseq(r.rows, frame.rows)
  {
    FilterIsSubseq(frame.rows, (g: GageRecord) => g.gagesIIClass == RefClass);
    GageFrame(frame.columns, Filter(frame.rows, (g: GageRecord) => g.gagesIIClass == RefClass))
  }

  /** Loading an all-reference table keeps it whole. */
  lemma AllReferenceKept(frame: GageFrame)
    requires forall k :: 0 <= k < |frame.rows| ==> frame.rows[k].gagesIIClass == RefClass
    ensures GetStreamgageData(frame) == frame
  {
    FilterKeepsAll(frame.rows, (g: GageRecord) => g.gagesIIClass == RefClass);
  }
}
