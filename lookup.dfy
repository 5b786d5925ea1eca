/**
 * The pure part of the ISIN lookup in the `FileReader` component of src/App.js:
 * the first-match search over the parsed CSV rows, the two-column projection of the
 * matching row, the outcome (result and background colour) a calculation produces,
 * and the rule that turns a result into the text shown to the user.
 */
module FundLookup {
  import opened Wrappers

  /** One parsed CSV row: column header to cell text. */
  type Row = map<string, string>

  const IsinColumn := "ISIN No"
  const ParentFundColumn := "Parent Fund"
  const SubFundColumn := "Sub Fund Name"

  /** The message stored when no row carries the ISIN. */
  const NoFundFound := "No fund found"
  /** The placeholder shown for a projected field that is missing or empty. */
  const NotAvailable := "N/A"

  /** Background colours of the result area: before any search, after a hit, after a miss. */
  const Grey := "#cfcccc"
  const Green := "#6cd65e"
  const Red := "#f04f4f"

  /** The object built from a matching row; a field is None where the row has no such column. */
  datatype Fund = Fund(parentFund: Option<string>, subFundName: Option<string>)

  /** The `result` state: a string (`""` at first, or the not-found message) or the projected object. */
  datatype ResultValue = Text(text: string) | Record(fund: Fund)

  /** What one calculation writes: the result and the background colour. */
  datatype Outcome = Outcome(result: ResultValue, colour: string)

  /** What the result area shows: a two-item list, or a single paragraph. */
  datatype Rendering = FundList(parentFund: string, subFundName: string) | Paragraph(text: string)

  /** Reading `row[column]`: the cell, or None (JavaScript's `undefined`) when the column is absent. */
  function Cell(row: Row, column: string): (r: Option<string>)
    ensures r.Some? <==> column in row
    ensures r.Some? ==> r.value == row[column]
  {
    if column in row then Some(row[column]) else None
  }

  /** The search predicate: the row's ISIN cell equals the query exactly (a missing cell never does). */
  predicate Matches(row: Row, query: string)
  {
    Cell(row, IsinColumn) == Some(query)
  }

  /** `i` is the position of the first row, in dataset order, that matches the query. */
  predicate IsFirstMatch(rows: seq<Row>, query: string, i: int)
  {
    && 0 <= i < |rows|
    && Matches(rows[i], query)
    && forall j :: 0 <= j < i ==> !Matches(rows[j], query)
  }

  /** The position of the row that `csvData.find` returns, or None when it returns `undefined`. */
  function Find(rows: seq<Row>, query: string): (r: Option<nat>)
    ensures r.Some? ==> IsFirstMatch(rows, query, r.value)
    ensures r.None? <==> forall j :: 0 <= j < |rows| ==> !Matches(rows[j], query)
  {
    if rows == [] then None
    else if Matches(rows[0], query) then Some(0)
    else match Find(rows[1..], query)
      case None => None
      case Some(i) => Some(i + 1)
  }

  lemma FirstMatchUnique(rows: seq<Row>, query: string, i: int, k: int)
    requires IsFirstMatch(rows, query, i) && IsFirstMatch(rows, query, k)
    ensures i == k
  {
  }

  /** The object holding only the parent fund and sub fund name of a row. */
  function Project(row: Row): (r: Fund)
    ensures r.parentFund.Some? <==> ParentFundColumn in row
    ensures r.parentFund.Some? ==> r.parentFund.value == row[ParentFundColumn]
    ensures r.subFundName.Some? <==> SubFundColumn in row
    ensures r.subFundName.Some? ==> r.subFundName.value == row[SubFundColumn]
  {
    Fund(Cell(row, ParentFundColumn), Cell(row, SubFundColumn))
  }

  /** Two rows that agree on the two projected columns project to the same object, whatever else they hold. */
  lemma ProjectReadsOnlyTwoColumns(a: Row, b: Row)
    requires Cell(a, ParentFundColumn) == Cell(b, ParentFundColumn)
    requires Cell(a, SubFundColumn) == Cell(b, SubFundColumn)
    ensures Project(a) == Project(b)
  {
  }

  /** The result and colour a calculation stores for this dataset and input text. */
  function Evaluate(rows: seq<Row>, query: string): (o: Outcome)
    ensures o.result.Record? <==> exists i :: 0 <= i < |rows| && Matches(rows[i], query)
    ensures forall i :: IsFirstMatch(rows, query, i) ==>
      && o.result == Record(Fund(Cell(rows[i], ParentFundColumn), Cell(rows[i], SubFundColumn)))
      && o.colour == Green
    ensures o.result.Text? ==> o.result.text == NoFundFound && o.colour == Red
  {
    match Find(rows, query)
    case Some(i) =>
      assert forall k :: IsFirstMatch(rows, query, k) ==> k == i by {
        forall k | IsFirstMatch(rows, query, k) ensures k == i { FirstMatchUnique(rows, query, i, k); }
      }
      Outcome(Record(Project(rows[i])), Green)
    case None => Outcome(Text(NoFundFound), Red)
  }

  /** Rows after a match are never consulted: appending rows keeps the outcome. */
  lemma {:induction false} EvaluateIgnoresLaterRows(rows: seq<Row>, more: seq<Row>, query: string)
    requires exists i :: 0 <= i < |rows| && Matches(rows[i], query)
    ensures Evaluate(rows + more, query) == Evaluate(rows, query)
  {
    var i := Find(rows, query).value;
    assert (rows + more)[i] == rows[i];
    assert forall j :: 0 <= j < i ==> (rows + more)[j] == rows[j];
    assert IsFirstMatch(rows + more, query, i);
  }

  /** Non-matching rows in front are skipped: the outcome is decided by the rows after them. */
  lemma {:induction false} EvaluateSkipsMisses(misses: seq<Row>, rows: seq<Row>, query: string)
    requires forall j :: 0 <= j < |misses| ==> !Matches(misses[j], query)
    ensures Evaluate(misses + rows, query) == Evaluate(rows, query)
  {
    var all := misses + rows;
    match Find(rows, query)
    case Some(i) =>
      assert all[|misses| + i] == rows[i];
      forall j | 0 <= j < |misses| + i ensures !Matches(all[j], query) {
        if j < |misses| { assert all[j] == misses[j]; } else { assert all[j] == rows[j - |misses|]; }
      }
      assert IsFirstMatch(all, query, |misses| + i);
    case None =>
      forall j | 0 <= j < |all| ensures !Matches(all[j], query) {
        if j < |misses| { assert all[j] == misses[j]; } else { assert all[j] == rows[j - |misses|]; }
      }
  }

  /** The display of one projected field: its value, or the placeholder when it is missing or empty. */
  function ShowField(v: Option<string>): (shown: string)
    ensures shown != ""
    ensures v.Some? && v.value != "" ==> shown == v.value
    ensures v.None? || v.value == "" ==> shown == NotAvailable
  {
    if v.Some? && v.value != "" then v.value else NotAvailable
  }

  /** The result area: an object result as a two-item list, a string result as itself. */
  function Render(result: ResultValue): (r: Rendering)
    ensures r.FundList? <==> result.Record?
    ensures result.Text? ==> r == Paragraph(result.text)
    ensures result.Record? ==> r.parentFund == ShowField(result.fund.parentFund)
    ensures result.Record? ==> r.subFundName == ShowField(result.fund.subFundName)
  {
    match result
    case Record(fund) => FundList(ShowField(fund.parentFund), ShowField(fund.subFundName))
    case Text(s) => Paragraph(s)
  }

  /** What the user sees after a calculation, stated in terms of the dataset. */
  lemma RenderAfterEvaluate(rows: seq<Row>, query: string, i: int)
    requires IsFirstMatch(rows, query, i)
    ensures Render(Evaluate(rows, query).result)
      == FundList(ShowField(Cell(rows[i], ParentFundColumn)), ShowField(Cell(rows[i], SubFundColumn)))
  {
  }

  lemma RenderAfterMiss(rows: seq<Row>, query: string)
    requires forall j :: 0 <= j < |rows| ==> !Matches(rows[j], query)
    ensures Render(Evaluate(rows, query).result) == Paragraph(NoFundFound)
  {
  }

  /** The lookup compares the ISIN exactly: a lower-case query misses an upper-case ISIN. */
  lemma CaseSensitiveLookup()
    ensures Evaluate([map[IsinColumn := "AB12CD3FG456"]], "ab12cd3fg456") == Outcome(Text(NoFundFound), Red)
  {
    assert !Matches(map[IsinColumn := "AB12CD3FG456"], "ab12cd3fg456");
  }

  /** A matched row without a sub fund name shows the placeholder for it. */
  lemma MissingSubFundShowsPlaceholder()
    ensures Render(Evaluate([map[IsinColumn := "AB12CD3FG456", ParentFundColumn := "Acme Umbrella"]],
                            "AB12CD3FG456").result)
      == FundList("Acme Umbrella", NotAvailable)
  {
    var row := map[IsinColumn := "AB12CD3FG456", ParentFundColumn := "Acme Umbrella"];
    assert SubFundColumn !in row;
    RenderAfterEvaluate([row], "AB12CD3FG456", 0);
  }

  /** A single row carrying the ISIN is found and both of its fields are shown. */
  lemma SingleRowFound()
    ensures Evaluate([map[IsinColumn := "AB12CD3FG456", ParentFundColumn := "Acme Umbrella",
                          SubFundColumn := "Acme Growth"]], "AB12CD3FG456")
      == Outcome(Record(Fund(Some("Acme Umbrella"), Some("Acme Growth"))), Green)
  {
    var row := map[IsinColumn := "AB12CD3FG456", ParentFundColumn := "Acme Umbrella", SubFundColumn := "Acme Growth"];
    assert IsFirstMatch([row], "AB12CD3FG456", 0);
  }

  /** An empty dataset (a failed load) makes every lookup miss. */
  lemma EmptyDatasetMisses(query: string)
    ensures Evaluate([], query) == Outcome(Text(NoFundFound), Red)
  {
  }
}
