/** `process_single_sheet` and `process_excel`: per sheet, resolve the required columns,
    select them under their title-cased names, build the reference index, aggregate the
    rows and build the report; every failure of a sheet becomes a one-cell error table
    in that sheet's place. */
module Workbook {
  import opened Wrappers
  import opened Text
  import opened Columns
  import opened Reference
  import opened Rows
  import opened Aggregate
  import opened Sorting
  import opened Report

  /** One input sheet: its name, its column headers, and its rows as read through the
      columns the six required names resolve to. */
  datatype Sheet = Sheet(name: string, headers: seq<Header>, rows: seq<Row>)

  /** What is written for a sheet: the report, or the single "Error" cell. */
  datatype Body = Table(rows: seq<OutRow>) | ErrorNote(message: string)

  datatype OutSheet = OutSheet(name: string, body: Body)

  /** The longest sheet name the workbook format allows. */
  const MAX_SHEET_NAME := 31

  /** `sheet_name[:31]`. */
  function ExcelSheetName(name: string): string {
    if |name| <= MAX_SHEET_NAME then name else name[..MAX_SHEET_NAME]
  }

  /** The required names whose column ends up under another name: the rename mapping is
      a dict keyed by matched header, so when several required names match the same
      header the last of them names the column and the earlier ones are missing from the
      selection. */
  function Displaced(matches: map<string, string>, targets: seq<string>): seq<string>
    requires forall t :: t in targets ==> t in matches
  {
    if targets == [] then []
    else
      var t := targets[0];
      (if exists later :: later in targets[1..] && matches[later] == matches[t] then [t] else [])
        + Displaced(matches, targets[1..])
  }

  /** The text of the `ValueError` raised for an unmatched required name. */
  function MissingColumnMessage(target: string): string {
    "Could not find a match for required column: '" + target + "'"
  }

  function Quoted(names: seq<string>): seq<string> {
    if names == [] then [] else ["'" + names[0] + "'"] + Quoted(names[1..])
  }

  /** The text of the `KeyError` the column selection raises for the missing titles. */
  function NotInIndexMessage(missing: seq<string>): string {
    "\"[" + Join(Quoted(missing), ", ") + "] not in index\""
  }

  function Titles(names: seq<string>): seq<string> {
    if names == [] then [] else [Title(names[0])] + Titles(names[1..])
  }

  /** The text of the error cell. */
  function SheetErrorMessage(name: string, detail: string): string {
    "Could not process sheet '" + name + "': " + detail
  }

  /** What `process_single_sheet` returns for a sheet, or the text of the exception it
      raises. */
  ghost function SheetResult(sim: (string, string) -> real, sheet: Sheet, table: seq<RefRow>)
    : Result<seq<OutRow>, string>
  {
    match Resolve(sim, sheet.headers)
    case Err(target) => Err(MissingColumnMessage(target))
    case Ok(matches) =>
      var displaced := Displaced(matches, REQUIRED_COLUMNS);
      if displaced != [] then Err(NotInIndexMessage(Titles(displaced)))
      else
        var uses := Uses(sheet.rows, ModelIndex(table), TypeIndex(table));
        Ok(Output(WithPeaks(Tally(uses), MachineTally(uses))))
  }

  /** The sheet's output: the report, or the error cell naming the sheet. */
  function BodyOf(name: string, result: Result<seq<OutRow>, string>): Body {
    match result
    case Ok(rows) => Table(rows)
    case Err(detail) => ErrorNote(SheetErrorMessage(name, detail))
  }

  /** `process_single_sheet`. */
  method ProcessSingleSheet(sim: (string, string) -> real, sheet: Sheet, table: seq<RefRow>)
    returns (r: Result<seq<OutRow>, string>)
    ensures r == SheetResult(sim, sheet, table)
  {
    var matched := FindBestColumnMatches(sim, sheet.headers);
    if matched.Err? {
      return Err(MissingColumnMessage(matched.error));
    }
    var displaced := Displaced(matched.value, REQUIRED_COLUMNS);
    if displaced != [] {
      return Err(NotInIndexMessage(Titles(displaced)));
    }
    var toModel, toType := BuildIndex(table);
    var typeSpares, perMachine := AccumulateRows(sheet.rows, toModel, toType);
    var filled := FillMaxSpare(typeSpares, perMachine);
    var out := BuildReport(filled);
    return Ok(out);
  }

  /** The sheet `process_excel` writes for one input sheet: under its truncated name,
      the report or the error cell. */
  ghost function Written(sim: (string, string) -> real, sheet: Sheet, table: seq<RefRow>): OutSheet {
    OutSheet(ExcelSheetName(sheet.name), BodyOf(sheet.name, SheetResult(sim, sheet, table)))
  }

  /** `f` applied to each element, in order. */
  function Each<A, B>(f: A -> B, xs: seq<A>): seq<B> {
    if xs == [] then [] else Each(f, xs[..|xs| - 1]) + [f(xs[|xs| - 1])]
  }

  lemma {:induction false} EachAt<A, B>(f: A -> B, xs: seq<A>)
    ensures |Each(f, xs)| == |xs|
    ensures forall i :: 0 <= i < |xs| ==> Each(f, xs)[i] == f(xs[i])
  {
    if xs != [] {
      var n := |xs| - 1;
      EachAt(f, xs[..n]);
      assert forall i :: 0 <= i < n ==> xs[..n][i] == xs[i];
    }
  }

  /** `process_excel`: one output sheet per input sheet, in order. */
  method ProcessExcel(sim: (string, string) -> real, sheets: seq<Sheet>, table: seq<RefRow>)
    returns (out: seq<OutSheet>)
    ensures |out| == |sheets|
    ensures forall i :: 0 <= i < |sheets| ==> out[i] == Written(sim, sheets[i], table)
  {
    ghost var write := (sheet: Sheet) => Written(sim, sheet, table);
    out := [];
    for i := 0 to |sheets|
      invariant out == Each(write, sheets[..i])
    {
      var written := WriteSheet(sim, sheets[i], table);
      assert sheets[..i + 1][..i] == sheets[..i];
      out := out + [written];
    }
    assert sheets[..|sheets|] == sheets;
    EachAt(write, sheets);
  }

  /** One pass of the `process_excel` loop: the `try` around `process_single_sheet` and
      the `except` that writes the error cell instead. */
  method WriteSheet(sim: (string, string) -> real, sheet: Sheet, table: seq<RefRow>) returns (written: OutSheet)
    ensures written == Written(sim, sheet, table)
  {
    var result := ProcessSingleSheet(sim, sheet, table);
    var body := match result
      case Ok(rows) => Table(rows)
      case Err(detail) => ErrorNote(SheetErrorMessage(sheet.name, detail));
    written := OutSheet(ExcelSheetName(sheet.name), body);
  }

  // What the orchestration promises.

  /** The written name is the sheet name cut to 31 characters. */
  lemma SheetNameTruncated(name: string)
    ensures |ExcelSheetName(name)| == if |name| <= MAX_SHEET_NAME then |name| else MAX_SHEET_NAME
    ensures name == ExcelSheetName(name) + name[|ExcelSheetName(name)|..]
  {
  }

  /** No required name is displaced exactly when the six names matched six different
      headers. */
  lemma {:induction false} DisplacedIffShared(matches: map<string, string>, targets: seq<string>)
    requires forall t :: t in targets ==> t in matches
    ensures forall t :: t in Displaced(matches, targets) ==> t in targets
    ensures Displaced(matches, targets) == [] <==>
      forall i, j :: 0 <= i < j < |targets| ==> matches[targets[i]] != matches[targets[j]]
  {
    if targets != [] {
      var rest := targets[1..];
      assert forall t :: t in rest ==> t in targets;
      DisplacedIffShared(matches, rest);
      if Displaced(matches, targets) == [] {
        forall i, j | 0 <= i < j < |targets| ensures matches[targets[i]] != matches[targets[j]] {
          if i == 0 {
            assert targets[j] in rest;
          } else {
            assert targets[i] == rest[i - 1] && targets[j] == rest[j - 1];
          }
        }
      }
    }
  }

  /** A sheet without a close match for some required name fails with the message that
      names the first such name, in the order of `REQUIRED_COLUMNS`. */
  lemma MissingColumnFails(sim: (string, string) -> real, sheet: Sheet, table: seq<RefRow>, t: string)
    requires t in REQUIRED_COLUMNS && CloseMatch(sim, t, Keys(sheet.headers)).None?
    ensures exists j :: && 0 <= j < |REQUIRED_COLUMNS|
                        && SheetResult(sim, sheet, table) == Err(MissingColumnMessage(REQUIRED_COLUMNS[j]))
                        && CloseMatch(sim, REQUIRED_COLUMNS[j], Keys(sheet.headers)).None?
                        && forall i :: 0 <= i < j ==> CloseMatch(sim, REQUIRED_COLUMNS[i], Keys(sheet.headers)).Some?
  {
    var r := Resolve(sim, sheet.headers);
    assert r.Err?;
    var j :| && 0 <= j < |REQUIRED_COLUMNS| && REQUIRED_COLUMNS[j] == r.error
             && CloseMatch(sim, r.error, Keys(sheet.headers)).None?
             && (forall i :: 0 <= i < j ==> CloseMatch(sim, REQUIRED_COLUMNS[i], Keys(sheet.headers)).Some?);
  }

  /** A sheet whose six required names all match, each to a header of its own, yields
      the report of its rows; with no part row kept it is empty. */
  lemma ResolvedSheetReports(sim: (string, string) -> real, sheet: Sheet, table: seq<RefRow>)
    requires Resolve(sim, sheet.headers).Ok?
    requires var m := Resolve(sim, sheet.headers).value;
      forall i, j :: 0 <= i < j < |REQUIRED_COLUMNS| ==> m[REQUIRED_COLUMNS[i]] != m[REQUIRED_COLUMNS[j]]
    ensures var uses := Uses(sheet.rows, ModelIndex(table), TypeIndex(table));
      SheetResult(sim, sheet, table) == Ok(Output(WithPeaks(Tally(uses), MachineTally(uses))))
    ensures Uses(sheet.rows, ModelIndex(table), TypeIndex(table)) == [] ==> SheetResult(sim, sheet, table) == Ok([])
  {
    var m := Resolve(sim, sheet.headers).value;
    DisplacedIffShared(m, REQUIRED_COLUMNS);
    var uses := Uses(sheet.rows, ModelIndex(table), TypeIndex(table));
    if uses == [] {
      assert WithPeaks(Tally(uses), MachineTally(uses)) == map[];
      assert SortedSet({}) == [];
    }
  }
}
