/** The script's top level: load the sheet, read the sidebar, run the query, fill the KPI row. */
module App {
  import opened Loader
  import opened Sidebar
  import opened Selection
  import opened Kpis

  method RunDashboard(sheet: seq<RawPassenger>, cb: Checkboxes) returns (sel: seq<Passenger>, kpis: Summary)
    ensures sel == Select(DeriveAll(sheet), AcceptedFor(cb))
    ensures kpis == Summarize(sel)
    ensures kpis.totalSurvived == CountLabelled(sel, "Survived") <= kpis.totalPassengers
    ensures kpis.rateDenominator == 0 <==> sel == []
  {
    var df := GetDataFromExcel(sheet);
    var acc := ReadSidebar(cb);
    sel := Select(df.Rows(), acc);
    SelectionTotals(df.Rows(), acc);
    kpis := Summarize(sel);
  }
}
