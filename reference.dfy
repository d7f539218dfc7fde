/** The reference index: the equipment table (serial number, model, equipment type)
    turned into the two dicts `serial_to_model` and `serial_to_type`, and the lookups
    that read them with the "missing" sentinels as defaults. The table is an input;
    the SQL query that fetches it is not part of this model. */
module Reference {
  import opened Wrappers

  /** One row of the equipment table; `None` is a null (NaN) cell. */
  datatype RefRow = RefRow(serial: Option<string>, model: Option<string>, equipType: Option<string>)

  const MODEL_MISSING := "MODEL MISSING"
  const TYPE_MISSING := "TYPE MISSING"

  /** A cell's value, or the sentinel when the cell is null. */
  function OrMissing(cell: Option<string>, sentinel: string): string {
    match cell
    case Some(v) => v
    case None => sentinel
  }

  /** `serial_to_model` after the loop over the rows whose serial is not null. */
  function ModelIndex(rows: seq<RefRow>): map<string, string> {
    if rows == [] then map[]
    else
      var index := ModelIndex(rows[..|rows| - 1]);
      var row := rows[|rows| - 1];
      if row.serial.None? then index else index[row.serial.value := OrMissing(row.model, MODEL_MISSING)]
  }

  /** `serial_to_type` after the same loop. */
  function TypeIndex(rows: seq<RefRow>): map<string, string> {
    if rows == [] then map[]
    else
      var index := TypeIndex(rows[..|rows| - 1]);
      var row := rows[|rows| - 1];
      if row.serial.None? then index else index[row.serial.value := OrMissing(row.equipType, TYPE_MISSING)]
  }

  /** `serial_to_model.get(serial, "MODEL MISSING")`. */
  function ModelFor(toModel: map<string, string>, serial: string): string {
    if serial in toModel then toModel[serial] else MODEL_MISSING
  }

  /** `serial_to_type.get(serial, "TYPE MISSING")`. */
  function TypeFor(toType: map<string, string>, serial: string): string {
    if serial in toType then toType[serial] else TYPE_MISSING
  }

  /** Row `i` is the last row of the table for `serial`. */
  ghost predicate IsLastFor(rows: seq<RefRow>, serial: string, i: int) {
    && 0 <= i < |rows| && rows[i].serial == Some(serial)
    && forall j :: i < j < |rows| ==> rows[j].serial != Some(serial)
  }

  /** Builds both dicts in one pass, skipping the rows whose serial is null (the
      `dropna(subset=['SerialNumber'])`); a later row for a serial overwrites an
      earlier one. */
  method BuildIndex(rows: seq<RefRow>) returns (toModel: map<string, string>, toType: map<string, string>)
    ensures toModel == ModelIndex(rows) && toType == TypeIndex(rows)
  {
    toModel, toType := map[], map[];
    var i := 0;
    while i < |rows|
      invariant i <= |rows|
      invariant toModel == ModelIndex(rows[..i]) && toType == TypeIndex(rows[..i])
    {
      var row := rows[i];
      assert rows[..i + 1][..i] == rows[..i];
      if row.serial.Some? {
        var serial := row.serial.value;
        var model := if row.model.Some? then row.model.value else MODEL_MISSING;
        var equipType := if row.equipType.Some? then row.equipType.value else TYPE_MISSING;
        toModel := toModel[serial := model];
        toType := toType[serial := equipType];
      }
      i := i + 1;
    }
    assert rows[..i] == rows;
  }

  /** Both dicts have an entry for exactly the serials that occur in the table. */
  lemma {:induction false} IndexedSerials(rows: seq<RefRow>, serial: string)
    ensures serial in ModelIndex(rows) <==> exists i :: 0 <= i < |rows| && rows[i].serial == Some(serial)
    ensures serial in TypeIndex(rows) <==> serial in ModelIndex(rows)
  {
    if rows != [] {
      var n := |rows| - 1;
      IndexedSerials(rows[..n], serial);
      if serial !in ModelIndex(rows) {
        forall i | 0 <= i < |rows| ensures rows[i].serial != Some(serial) {
          if i < n {
            assert rows[i] == rows[..n][i];
          }
        }
      } else if rows[n].serial != Some(serial) {
        var i :| 0 <= i < n && rows[..n][i].serial == Some(serial);
        assert rows[i] == rows[..n][i];
      }
    }
  }

  /** A serial that no row of the table carries is looked up as the two sentinels. */
  lemma UnknownSerial(rows: seq<RefRow>, serial: string)
    requires forall i :: 0 <= i < |rows| ==> rows[i].serial != Some(serial)
    ensures ModelFor(ModelIndex(rows), serial) == MODEL_MISSING
    ensures TypeFor(TypeIndex(rows), serial) == TYPE_MISSING
  {
    IndexedSerials(rows, serial);
  }

  /** A known serial is looked up as the model and type of its last row in the table,
      with the sentinel for a null cell. */
  lemma {:induction false} LastRowWins(rows: seq<RefRow>, serial: string, i: int)
    requires IsLastFor(rows, serial, i)
    ensures ModelFor(ModelIndex(rows), serial) == OrMissing(rows[i].model, MODEL_MISSING)
    ensures TypeFor(TypeIndex(rows), serial) == OrMissing(rows[i].equipType, TYPE_MISSING)
  {
    var n := |rows| - 1;
    if i < n {
      assert rows[..n][i] == rows[i];
      assert IsLastFor(rows[..n], serial, i) by {
        forall j | i < j < n ensures rows[..n][j].serial != Some(serial) {
          assert rows[..n][j] == rows[j];
        }
      }
      LastRowWins(rows[..n], serial, i);
    }
  }
}
