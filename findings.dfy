/** The quantity coercion `pd.to_numeric(cell, errors='coerce') or 0` as written, on the
    floats pandas produces, next to the coercion the rest of the model uses (`Coerce`,
    a blank or non-numeric cell counts 0). As written a blank cell stays NaN, because NaN
    is truthy and `or 0` never replaces it; the NaN then poisons the sums it enters, and
    `max(max_spare, qty)` silently skips a NaN sum. */
module Findings {
  import opened Rows

  /** A float as far as the finding needs one: a whole finite value, or NaN. */
  datatype Float = Finite(v: int) | NaN

  /** Python truthiness of a float: NaN is truthy, only zero is falsy. */
  predicate Truthy(x: Float) {
    x.NaN? || x.v != 0
  }

  /** `x or y`. */
  function Or(x: Float, y: Float): Float {
    if Truthy(x) then x else y
  }

  /** `pd.to_numeric(cell, errors='coerce')`. */
  function ToNumeric(q: Qty): Float {
    match q
    case Count(n) => Finite(n)
    case NotNumber => NaN
  }

  /** The coercion as written. */
  function CoerceAsWritten(q: Qty): Float {
    Or(ToNumeric(q), Finite(0))
  }

  /** Float addition: NaN absorbs. */
  function Add(a: Float, b: Float): Float {
    if a.NaN? || b.NaN? then NaN else Finite(a.v + b.v)
  }

  /** `a > b` on floats: false whenever NaN is involved. */
  predicate Greater(a: Float, b: Float) {
    a.Finite? && b.Finite? && a.v > b.v
  }

  /** Python's `max(a, b)`: the first argument unless the second is greater. */
  function Max(a: Float, b: Float): Float {
    if Greater(b, a) then b else a
  }

  /** A machine's `per_machine_spares` sum as written: `+=` from 0.0 over its rows. */
  function SumAsWritten(cells: seq<Qty>): Float {
    if cells == [] then Finite(0)
    else Add(SumAsWritten(cells[..|cells| - 1]), CoerceAsWritten(cells[|cells| - 1]))
  }

  /** The same sum with the corrected coercion. */
  function Sum(cells: seq<Qty>): int {
    if cells == [] then 0 else Sum(cells[..|cells| - 1]) + Coerce(cells[|cells| - 1])
  }

  /** The peak loop as written over the per-machine sums, in dict order. */
  function PeakAsWritten(sums: seq<Float>): Float {
    if sums == [] then Finite(0) else Max(PeakAsWritten(sums[..|sums| - 1]), sums[|sums| - 1])
  }

  /** `or 0` has no effect: a number is kept (0 included) and NaN stays NaN. */
  lemma OrZeroKeepsNaN(n: int)
    ensures CoerceAsWritten(Count(n)) == Finite(n)
    ensures CoerceAsWritten(NotNumber) == NaN
  {
  }

  /** One blank cell makes the machine's whole sum NaN. */
  lemma {:induction false} BlankPoisonsSum(cells: seq<Qty>)
    ensures SumAsWritten(cells) == NaN <==> NotNumber in cells
  {
    if cells != [] {
      BlankPoisonsSum(cells[..|cells| - 1]);
      NaNStep(cells);
      BlankStep(cells);
    }
  }

  lemma NaNStep(cells: seq<Qty>)
    requires cells != []
    ensures SumAsWritten(cells) == NaN <==>
      SumAsWritten(cells[..|cells| - 1]) == NaN || cells[|cells| - 1] == NotNumber
  {
  }

  lemma BlankStep(cells: seq<Qty>)
    requires cells != []
    ensures NotNumber in cells <==> NotNumber in cells[..|cells| - 1] || cells[|cells| - 1] == NotNumber
  {
    assert cells == cells[..|cells| - 1] + [cells[|cells| - 1]];
  }

  /** Without blank cells the sum as written and the corrected sum agree. */
  lemma {:induction false} SumsAgreeWithoutBlanks(cells: seq<Qty>)
    requires forall i :: 0 <= i < |cells| ==> cells[i].Count?
    ensures SumAsWritten(cells) == Finite(Sum(cells))
  {
    if cells != [] {
      var n := |cells| - 1;
      var prefix, last := cells[..n], cells[n];
      assert forall i :: 0 <= i < |prefix| ==> prefix[i].Count?;
      SumsAgreeWithoutBlanks(prefix);
      assert CoerceAsWritten(last) == Finite(Coerce(last)) by {
        OrZeroKeepsNaN(last.n);
      }
      assert SumAsWritten(cells) == Add(SumAsWritten(prefix), CoerceAsWritten(last));
      assert Sum(cells) == Sum(prefix) + Coerce(last);
    }
  }

  /** The peak as written is the largest of 0 and the finite sums: every NaN sum, that
      is every machine with a blank spare cell for the part, is left out. */
  lemma {:induction false} PeakSkipsNaN(sums: seq<Float>)
    ensures PeakAsWritten(sums).Finite? && PeakAsWritten(sums).v >= 0
    ensures forall i :: 0 <= i < |sums| && sums[i].Finite? ==> sums[i].v <= PeakAsWritten(sums).v
    ensures PeakAsWritten(sums).v == 0 ||
      exists i :: 0 <= i < |sums| && sums[i] == PeakAsWritten(sums)
  {
    if sums != [] {
      var n := |sums| - 1;
      PeakSkipsNaN(sums[..n]);
      assert forall i :: 0 <= i < n ==> sums[..n][i] == sums[i];
    }
  }

  /** Two machines use the part; the first has spare cells 4 and blank, the second 1.
      As written the first machine's sum is NaN, the peak is 1 and the second machine
      sets it; with the corrected coercion the peak is 4. */
  lemma BlankCellHidesBusiestMachine()
    ensures var first, second := [Count(4), NotNumber], [Count(1)];
      && PeakAsWritten([SumAsWritten(first), SumAsWritten(second)]) == Finite(1)
      && Sum(first) == 4 && Sum(second) == 1
  {
    var first, second := [Count(4), NotNumber], [Count(1)];
    assert first[..1] == [Count(4)];
    assert SumAsWritten(first) == NaN;
    assert SumAsWritten(second) == Finite(1);
    var sums := [SumAsWritten(first), SumAsWritten(second)];
    assert sums[..1] == [NaN];
    assert PeakAsWritten(sums[..1]) == Finite(0);
  }

  /** The corrected coercion: a blank or non-numeric cell adds nothing to a sum, and on
      cells that are all numbers the result is the one written. */
  lemma CorrectedCoercion(cells: seq<Qty>)
    ensures Sum(cells + [NotNumber]) == Sum(cells)
    ensures NotNumber !in cells ==> SumAsWritten(cells) == Finite(Sum(cells))
  {
    assert (cells + [NotNumber])[..|cells|] == cells;
    if NotNumber !in cells {
      assert forall i :: 0 <= i < |cells| ==> cells[i].Count? by {
        forall i | 0 <= i < |cells| ensures cells[i].Count? {
          assert cells[i] in cells;
        }
      }
      SumsAgreeWithoutBlanks(cells);
    }
  }
}
