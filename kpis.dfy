/**
 * The integer figures of the dashboard's KPI row: Total Passengers, Total Survived, and the
 * numerator and denominator the Survival Rate percentage is computed from.
 */
module Kpis {
  import opened Wrappers
  import opened Loader
  import opened Sidebar
  import opened Selection

  /** `df_selection['Survived'].sum()`. */
  function TotalSurvived(sel: seq<Passenger>): (total: int)
    ensures (forall k :: 0 <= k < |sel| ==> sel[k].raw.survived >= 0) ==> total >= 0
    ensures (forall k :: 0 <= k < |sel| ==> sel[k].raw.survived <= 1) ==> total <= |sel|
  {
    if sel == [] then 0 else sel[0].raw.survived + TotalSurvived(sel[1..])
  }

  /** The number of rows whose Survival label is `tag`. */
  function CountLabelled(sel: seq<Passenger>, tag: string): (n: nat)
    ensures n <= |sel|
  {
    if sel == [] then 0
    else (if sel[0].survival == Some(tag) then 1 else 0) + CountLabelled(sel[1..], tag)
  }

  /**
   * The KPI row: `shape[0]`, the `Survived` sum, and the fraction `Survival Rate` divides
   * (it is multiplied by 100 and formatted as a percentage).
   */
  datatype Summary = Summary(
    totalPassengers: nat,
    totalSurvived: int,
    rateNumerator: int,
    rateDenominator: nat)

  function Summarize(sel: seq<Passenger>): (s: Summary)
    ensures s.totalPassengers == |sel|
    ensures s.rateNumerator == s.totalSurvived && s.rateDenominator == s.totalPassengers
    ensures s.rateDenominator == 0 <==> sel == []
  {
    Summary(|sel|, TotalSurvived(sel), TotalSurvived(sel), |sel|)
  }

  /** Every row carries the labels the loader derives. */
  predicate IsDerivedTable(rows: seq<Passenger>)
  {
    forall k :: 0 <= k < |rows| ==> IsDerived(rows[k])
  }

  /** When every `Survived` is 0 or 1, the sum counts the survivors and is at most the row count. */
  lemma {:induction false} BinarySurvivedSum(sel: seq<Passenger>)
    requires forall k :: 0 <= k < |sel| ==> sel[k].raw.survived == 0 || sel[k].raw.survived == 1
    ensures 0 <= TotalSurvived(sel) <= |sel|
    ensures IsDerivedTable(sel) ==> TotalSurvived(sel) == CountLabelled(sel, "Survived")
  {
    if sel != [] {
      BinarySurvivedSum(sel[1..]);
    }
  }

  /**
   * On loaded rows, whatever the accepted lists, Total Survived is the number of selected
   * rows labelled "Survived" and never exceeds Total Passengers: a row whose `Survived` is
   * not 0 or 1 has no label and is not selected.
   */
  lemma SelectionTotals(rows: seq<Passenger>, acc: Accepted)
    requires IsDerivedTable(rows)
    ensures var s := Summarize(Select(rows, acc));
      && s.totalSurvived == CountLabelled(Select(rows, acc), "Survived")
      && 0 <= s.totalSurvived <= s.totalPassengers
  {
    var sel := Select(rows, acc);
    SelectIsSubsequence(rows, acc);
    forall k | 0 <= k < |sel| ensures IsDerived(sel[k]) && sel[k].survival.Some? {
      Sequences.SubsequenceMembers(sel, rows, sel[k]);
      var j :| 0 <= j < |rows| && rows[j] == sel[k];
    }
    BinarySurvivedSum(sel);
  }

  /** The survival rate is undefined (a zero denominator) exactly when the selection is empty. */
  lemma RateUndefinedIffEmpty(rows: seq<Passenger>, acc: Accepted)
    ensures Summarize(Select(rows, acc)).rateDenominator == 0 <==>
            forall p :: p in rows ==> !Keeps(acc, p)
  {
    forall p | p in rows ensures p in Select(rows, acc) <==> Keeps(acc, p) {
      SelectMembers(rows, acc, p);
    }
    if Select(rows, acc) != [] {
      assert Select(rows, acc)[0] in Select(rows, acc);
    }
  }

  /** Three passengers: male 1st class from Southampton who died, and two surviving women. */
  function Sample(): seq<Passenger>
  {
    [ Derive(RawPassenger("Rider, Mr. A", Some("male"), Some(1), 0, 0, Some("S"), 0)),
      Derive(RawPassenger("Rider, Mrs. B", Some("female"), Some(3), 1, 0, Some("C"), 1)),
      Derive(RawPassenger("Rider, Miss. C", Some("female"), Some(2), 0, 2, Some("Q"), 1)) ]
  }

  /**
   * Survivors only, classes 2 and 3, women only, every port: the second and third rows are
   * selected, two passengers survived, and the rate is two out of two.
   */
  lemma SampleSelection()
    ensures var acc := Accepted(["Survived"], [2, 3], ["female"], ["C", "Q", "S"]);
      && Select(Sample(), acc) == [Sample()[1], Sample()[2]]
      && Summarize(Select(Sample(), acc)) == Summary(2, 2, 2, 2)
  {
    var acc := Accepted(["Survived"], [2, 3], ["female"], ["C", "Q", "S"]);
    var rows := Sample();
    assert !Keeps(acc, rows[0]);
    assert Keeps(acc, rows[1]) && Keeps(acc, rows[2]);
    assert rows[1..][1..][1..] == [];
    assert Select(rows, acc) == [rows[1], rows[2]];
    assert [rows[1], rows[2]][1..][1..] == [];
  }
}
