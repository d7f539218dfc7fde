/** The machine-block row filter of `process_single_sheet`: which rows of a sheet are
    aggregated, and the part usage each such row contributes. Rows are given already
    read through the six resolved columns. */
module Rows {
  import opened Wrappers
  import opened Text
  import opened Reference

  /** What `pd.to_numeric(cell, errors='coerce')` yields for a quantity cell: a number,
      or NaN (`NotNumber`) for an empty or non-numeric cell. */
  datatype Qty = Count(n: int) | NotNumber

  /** One input row; `None` is an empty (NaN) cell. */
  datatype Row = Row(
    serial: Option<string>,
    totalQty: Qty,
    spareQty: Qty,
    itemNo: Option<string>,
    description: Option<string>,
    unitPrice: Option<real>)

  /** The part usage a kept row contributes, with the serial's model and equipment type
      looked up in the reference index and both quantities coerced to numbers. */
  datatype Use = Use(
    serial: string,
    model: string,
    equipType: string,
    itemNo: string,
    description: string,
    unitPrice: Option<real>,
    totalQty: int,
    spareQty: int)

  /** The `last_serial` variable: `None` before the first row, then the serial of the
      previous row (it is reassigned whenever the serial changes, and otherwise already
      equals it). */
  datatype Last = NoRowYet | Seen(serial: Option<string>)

  /** `serial != last_serial`. An empty serial is NaN, which differs from everything,
      itself included. */
  predicate SerialChanged(serial: Option<string>, last: Last) {
    match last
    case NoRowYet => true
    case Seen(prev) => serial.None? || prev.None? || serial != prev
  }

  function LastBefore(rows: seq<Row>, i: nat): Last
    requires i <= |rows|
  {
    if i == 0 then NoRowYet else Seen(rows[i - 1].serial)
  }

  /** Row `i` is where the serial changes: the block's header row, which is skipped. */
  predicate OpensBlock(rows: seq<Row>, i: nat)
    requires i < |rows|
  {
    SerialChanged(rows[i].serial, LastBefore(rows, i))
  }

  /** The item number is the "TBD" placeholder: `str(item_no).strip().upper() == 'TBD'`. */
  predicate IsTbd(itemNo: string) {
    Upper(Strip(itemNo)) == "TBD"
  }

  /** The row carries a stockable part: item number and description present, and the
      item number is not the placeholder. */
  predicate IsPartRow(row: Row) {
    row.itemNo.Some? && row.description.Some? && !IsTbd(row.itemNo.value)
  }

  /** Row `i` reaches the aggregation. */
  predicate Kept(rows: seq<Row>, i: nat)
    requires i < |rows|
  {
    !OpensBlock(rows, i) && IsPartRow(rows[i])
  }

  /** A quantity as aggregated: the number, and 0 for a NaN cell (see the finding about
      `or 0` in the Findings module). */
  function Coerce(q: Qty): int {
    match q
    case Count(n) => n
    case NotNumber => 0
  }

  /** The usage recorded for a kept row. */
  function UseOf(row: Row, toModel: map<string, string>, toType: map<string, string>): Use
    requires row.serial.Some? && IsPartRow(row)
  {
    var serial := row.serial.value;
    Use(serial, ModelFor(toModel, serial), TypeFor(toType, serial), row.itemNo.value,
        row.description.value, row.unitPrice, Coerce(row.totalQty), Coerce(row.spareQty))
  }

  /** The usages of the kept rows, in row order. */
  function Uses(rows: seq<Row>, toModel: map<string, string>, toType: map<string, string>): seq<Use> {
    if rows == [] then []
    else
      var n := |rows| - 1;
      Uses(rows[..n], toModel, toType)
        + (if Kept(rows, n) then [UseOf(rows[n], toModel, toType)] else [])
  }

  /** The positions of the kept rows, in order. */
  function KeptPositions(rows: seq<Row>): seq<nat> {
    if rows == [] then []
    else
      var n := |rows| - 1;
      KeptPositions(rows[..n]) + (if Kept(rows, n) then [n] else [])
  }

  /** The filter rule restated without the `last_serial` machinery: a row is aggregated
      exactly when it is not the first row, its serial is present and equal to the
      previous row's, and it carries a part whose item number is not "TBD". */
  lemma KeptRule(rows: seq<Row>, i: nat)
    requires i < |rows|
    ensures Kept(rows, i) <==>
      && i > 0 && rows[i].serial.Some? && rows[i].serial == rows[i - 1].serial
      && rows[i].itemNo.Some? && rows[i].description.Some? && !IsTbd(rows[i].itemNo.value)
  {
  }

  /** Filtering depends on a row and the row before it only, so it is the same on a
      prefix. */
  lemma KeptInPrefix(rows: seq<Row>, m: nat, i: nat)
    requires i < m <= |rows|
    ensures Kept(rows[..m], i) == Kept(rows, i)
  {
    assert rows[..m][i] == rows[i];
    if i > 0 {
      assert rows[..m][i - 1] == rows[i - 1];
    }
  }

  /** One more row adds its usage when it is kept, and nothing otherwise. */
  lemma UsesStep(rows: seq<Row>, i: nat, toModel: map<string, string>, toType: map<string, string>)
    requires i < |rows|
    ensures Uses(rows[..i + 1], toModel, toType) ==
      Uses(rows[..i], toModel, toType) + (if Kept(rows, i) then [UseOf(rows[i], toModel, toType)] else [])
  {
    assert rows[..i + 1][..i] == rows[..i];
    assert rows[..i + 1][i] == rows[i];
    KeptInPrefix(rows, i + 1, i);
  }

  /** The usages are those of the kept rows, one per kept row, in row order, and no
      other row contributes one. */
  lemma {:induction false} UsesAreKeptRows(rows: seq<Row>, toModel: map<string, string>, toType: map<string, string>)
    ensures |Uses(rows, toModel, toType)| == |KeptPositions(rows)|
    ensures forall k :: 0 <= k < |KeptPositions(rows)| ==>
      && KeptPositions(rows)[k] < |rows|
      && Kept(rows, KeptPositions(rows)[k])
      && Uses(rows, toModel, toType)[k] == UseOf(rows[KeptPositions(rows)[k]], toModel, toType)
    ensures forall i :: 0 <= i < |rows| ==> (Kept(rows, i) <==> i in KeptPositions(rows))
    ensures forall a, b :: 0 <= a < b < |KeptPositions(rows)| ==> KeptPositions(rows)[a] < KeptPositions(rows)[b]
  {
    if rows != [] {
      var n := |rows| - 1;
      var prefix := rows[..n];
      UsesAreKeptRows(prefix, toModel, toType);
      var ps := KeptPositions(prefix);
      forall k | 0 <= k < |ps| ensures Kept(rows, ps[k]) && rows[ps[k]] == prefix[ps[k]] {
        KeptInPrefix(rows, n, ps[k]);
      }
      forall i | 0 <= i < n ensures Kept(rows, i) <==> i in ps {
        KeptInPrefix(rows, n, i);
      }
    }
  }

  /** No usage carries the "TBD" placeholder as its item number. */
  lemma NoPlaceholderUses(rows: seq<Row>, toModel: map<string, string>, toType: map<string, string>)
    ensures forall u :: u in Uses(rows, toModel, toType) ==> !IsTbd(u.itemNo)
  {
    UsesAreKeptRows(rows, toModel, toType);
    forall u | u in Uses(rows, toModel, toType) ensures !IsTbd(u.itemNo) {
      var k :| 0 <= k < |Uses(rows, toModel, toType)| && Uses(rows, toModel, toType)[k] == u;
    }
  }

  /** The placeholder is recognised in any letter case and with any surrounding
      whitespace, and nothing else is: what is left after stripping is exactly the three
      letters T, B, D, each in either case. */
  lemma PlaceholderSpellings(itemNo: string)
    ensures IsTbd(itemNo) <==>
      var t := Strip(itemNo);
      |t| == 3 && t[0] in "Tt" && t[1] in "Bb" && t[2] in "Dd"
  {
    var t := Strip(itemNo);
    UpperAt(t);
    if |t| == 3 && t[0] in "Tt" && t[1] in "Bb" && t[2] in "Dd" {
      assert Upper(t) == "TBD";
    }
    if IsTbd(itemNo) {
      assert UpperChar(t[0]) == 'T' && UpperChar(t[1]) == 'B' && UpperChar(t[2]) == 'D';
    }
  }
}
