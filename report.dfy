/** The output table of `process_single_sheet`: one header row per equipment type in
    ascending order, followed by that type's parts sorted by description, each with its
    total quantity, its scaled spare quantity and its models joined in ascending order. */
module Report {
  import opened Wrappers
  import opened Text
  import opened Sorting
  import opened Rows
  import opened Aggregate
  import opened Scale

  /** One output row: a type header (every other cell empty) or a part line. */
  datatype OutRow =
    | TypeHeader(equipType: string)
    | PartLine(totalQty: int, spareQty: real, itemNo: string, description: string,
               unitPrice: Option<real>, models: string)

  /** One `(item_no, data)` pair of `parts.items()`. */
  type Entry = (string, Part)

  /** `parts.items()` for a dict with key order `order`. */
  function EntriesOf(order: seq<string>, parts: map<string, Part>): seq<Entry> {
    if order == [] then []
    else
      var item := order[|order| - 1];
      EntriesOf(order[..|order| - 1], parts) + (if item in parts then [(item, parts[item])] else [])
  }

  function Entries(table: PartTable): seq<Entry> {
    EntriesOf(table.order, table.parts)
  }

  /** The sort key `x[1]["Description"]`. */
  function Description(e: Entry): string {
    e.1.description
  }

  /** The output line of one part. */
  function Line(e: Entry): OutRow {
    var (itemNo, data) := e;
    PartLine(data.totalQty, FinalSpare(data.maxSpare, |data.serials|), itemNo, data.description,
             data.unitPrice, Join(SortedSet(data.models), ", "))
  }

  function Lines(es: seq<Entry>): seq<OutRow> {
    if es == [] then [] else Lines(es[..|es| - 1]) + [Line(es[|es| - 1])]
  }

  /** The rows of one equipment type. */
  function Section(t: string, table: PartTable): seq<OutRow> {
    [TypeHeader(t)] + Lines(SortBy(Entries(table), Description))
  }

  function Sections(types: seq<string>, spares: TypeSpares): seq<OutRow>
    requires forall i :: 0 <= i < |types| ==> types[i] in spares
  {
    if types == [] then []
    else Sections(types[..|types| - 1], spares) + Section(types[|types| - 1], spares[types[|types| - 1]])
  }

  /** `output_rows`: the sections of all types in ascending order of type. */
  function Output(spares: TypeSpares): seq<OutRow> {
    Sections(SortedSet(spares.Keys), spares)
  }

  /** The report: the types in ascending order, then the loop over them. */
  method BuildReport(spares: TypeSpares) returns (out: seq<OutRow>)
    ensures out == Output(spares)
  {
    var types := SortedSet(spares.Keys);
    out := ReportSections(types, spares);
  }

  /** The report loop over the sorted types. */
  method ReportSections(types: seq<string>, spares: TypeSpares) returns (out: seq<OutRow>)
    requires forall i :: 0 <= i < |types| ==> types[i] in spares
    ensures out == Sections(types, spares)
  {
    out := [];
    for i := 0 to |types|
      invariant out == Sections(types[..i], spares)
    {
      assert types[..i + 1][..i] == types[..i];
      var section := SectionRows(types[i], spares[types[i]]);
      out := out + section;
    }
    assert types[..|types|] == types;
  }

  /** One pass of the report loop: the header row of type `t`, then a line per part in
      description order. */
  method SectionRows(t: string, table: PartTable) returns (rows: seq<OutRow>)
    ensures rows == Section(t, table)
  {
    rows := [TypeHeader(t)];
    var sorted := SortBy(Entries(table), Description);
    for j := 0 to |sorted|
      invariant rows == [TypeHeader(t)] + Lines(sorted[..j])
    {
      LinesStep(sorted, j);
      var line := PartRow(sorted[j]);
      rows := rows + [line];
    }
    assert sorted[..|sorted|] == sorted;
  }

  /** One pass of the inner loop: the machine count, the scaled quantity and the row.
      The line carries the part's own item no., description, price and total; its
      spare quantity lies between the peak and twice the peak, equals the peak below 5
      machines, and is the peak times a quarter more per full 5 machines up to 2.0; its
      models are the part's models listed once each in ascending order. */
  method PartRow(e: Entry) returns (row: OutRow)
    ensures row == Line(e)
    ensures row.PartLine? && row.itemNo == e.0 && row.description == e.1.description
    ensures row.totalQty == e.1.totalQty && row.unitPrice == e.1.unitPrice
    ensures e.1.maxSpare >= 0 ==> e.1.maxSpare as real <= row.spareQty <= 2.0 * e.1.maxSpare as real
    ensures |e.1.serials| < 5 ==> row.spareQty == e.1.maxSpare as real
    ensures var n := |e.1.serials|;
      row.spareQty == e.1.maxSpare as real * (4 + (if n / 5 < 4 then n / 5 else 4)) as real / 4.0
    ensures exists ms :: StrictlyAscending(ms) && (forall m :: m in ms <==> m in e.1.models)
                         && row.models == Join(ms, ", ")
  {
    var data := e.1;
    var machineCount := |data.serials|;
    var finalSpare := FinalSpare(data.maxSpare, machineCount);
    FinalSpareFacts(data.maxSpare, machineCount);
    var models := SortedSet(data.models);
    assert StrictlyAscending(models) && (forall m :: m in models <==> m in data.models);
    row := PartLine(data.totalQty, finalSpare, e.0, data.description, data.unitPrice,
                    Join(models, ", "));
  }

  lemma LinesStep(es: seq<Entry>, j: nat)
    requires j < |es|
    ensures Lines(es[..j + 1]) == Lines(es[..j]) + [Line(es[j])]
  {
    assert es[..j + 1][..j] == es[..j];
  }

  // What the report promises.

  /** The equipment types named by the header rows, in order. */
  function Headers(rows: seq<OutRow>): seq<string> {
    if rows == [] then []
    else Headers(rows[..|rows| - 1]) + (if rows[|rows| - 1].TypeHeader? then [rows[|rows| - 1].equipType] else [])
  }

  lemma {:induction false} HeadersAppend(a: seq<OutRow>, b: seq<OutRow>)
    ensures Headers(a + b) == Headers(a) + Headers(b)
    decreases |b|
  {
    if b == [] {
      assert a + b == a;
    } else {
      var n := |b| - 1;
      assert (a + b)[..|a + b| - 1] == a + b[..n];
      assert (a + b)[|a + b| - 1] == b[n];
      HeadersAppend(a, b[..n]);
    }
  }

  /** One line per part, in order. */
  lemma {:induction false} LinesAt(es: seq<Entry>)
    ensures |Lines(es)| == |es|
    ensures forall i :: 0 <= i < |es| ==> Lines(es)[i] == Line(es[i])
  {
    if es != [] {
      var n := |es| - 1;
      var prefix := es[..n];
      LinesAt(prefix);
      forall i | 0 <= i < n ensures Lines(es)[i] == Line(es[i]) {
        assert es[i] == prefix[i];
      }
    }
  }

  /** Part lines are never header rows. */
  lemma {:induction false} LinesHaveNoHeaders(es: seq<Entry>)
    ensures Headers(Lines(es)) == []
  {
    if es != [] {
      var n := |es| - 1;
      var prefix := es[..n];
      LinesHaveNoHeaders(prefix);
      HeadersAppend(Lines(prefix), [Line(es[n])]);
      assert [Line(es[n])][..0] == [];
    }
  }

  /** The header rows name every equipment type once, in ascending order, and no other. */
  lemma TypesInOrder(spares: TypeSpares)
    ensures Headers(Output(spares)) == SortedSet(spares.Keys)
  {
    HeadersOfSections(SortedSet(spares.Keys), spares);
  }

  lemma {:induction false} HeadersOfSections(types: seq<string>, spares: TypeSpares)
    requires forall i :: 0 <= i < |types| ==> types[i] in spares
    ensures Headers(Sections(types, spares)) == types
  {
    if types != [] {
      var n := |types| - 1;
      var t := types[n];
      HeadersOfSections(types[..n], spares);
      HeadersAfterSection(Sections(types[..n], spares), t, spares[t]);
      assert types == types[..n] + [t];
    }
  }

  /** A section adds exactly its own type to the header rows. */
  lemma HeadersAfterSection(prefix: seq<OutRow>, t: string, table: PartTable)
    ensures Headers(prefix + Section(t, table)) == Headers(prefix) + [t]
  {
    var sorted := SortBy(Entries(table), Description);
    LinesHaveNoHeaders(sorted);
    HeadersAppend([TypeHeader(t)], Lines(sorted));
    assert [TypeHeader(t)][..0] == [];
    HeadersAppend(prefix, Section(t, table));
  }

  /** A well-formed dict's `items()` lists every part once, in key order. */
  lemma {:induction false} EntriesListed(order: seq<string>, parts: map<string, Part>)
    requires forall item :: item in order ==> item in parts
    ensures |EntriesOf(order, parts)| == |order|
    ensures forall i :: 0 <= i < |order| ==> EntriesOf(order, parts)[i] == (order[i], parts[order[i]])
  {
    if order != [] {
      var n := |order| - 1;
      assert forall item :: item in order[..n] ==> item in order;
      EntriesListed(order[..n], parts);
    }
  }

  lemma {:induction false} LinesAppend(a: seq<Entry>, b: seq<Entry>)
    ensures Lines(a + b) == Lines(a) + Lines(b)
    decreases |b|
  {
    if b == [] {
      assert a + b == a;
    } else {
      var n := |b| - 1;
      assert (a + b)[..|a + b| - 1] == a + b[..n];
      assert (a + b)[|a + b| - 1] == b[n];
      LinesAppend(a, b[..n]);
    }
  }

  /** Reordering the parts reorders their lines the same way. */
  lemma {:induction false} LinesPermute(a: seq<Entry>, b: seq<Entry>)
    requires multiset(a) == multiset(b)
    ensures multiset(Lines(a)) == multiset(Lines(b))
    decreases |a|
  {
    if a != [] {
      var n := |a| - 1;
      var x := a[n];
      assert x in multiset(b) by {
        assert x in a;
      }
      var k :| 0 <= k < |b| && b[k] == x;
      var rest := b[..k] + b[k + 1..];
      assert multiset(a[..n]) == multiset(rest) by {
        assert a == a[..n] + [x];
        RemoveAt(b, k);
      }
      LinesPermute(a[..n], rest);
      LinesRemoveAt(b, k);
    }
  }

  lemma SplitAt<T>(s: seq<T>, k: nat)
    requires k < |s|
    ensures s == s[..k] + [s[k]] + s[k + 1..]
  {
  }

  lemma RemoveAt<T>(s: seq<T>, k: nat)
    requires k < |s|
    ensures multiset(s[..k] + s[k + 1..]) == multiset(s) - multiset{s[k]}
  {
    assert s == s[..k] + [s[k]] + s[k + 1..];
  }

  /** The lines of a sequence are those of the sequence without one element, plus that
      element's line. */
  lemma LinesRemoveAt(b: seq<Entry>, k: nat)
    requires k < |b|
    ensures multiset(Lines(b)) == multiset(Lines(b[..k] + b[k + 1..])) + multiset{Line(b[k])}
  {
    LinesSplitAt(b, k);
    LinesAppend(b[..k], b[k + 1..]);
    MultisetAround(Lines(b[..k]), Line(b[k]), Lines(b[k + 1..]));
  }

  lemma LinesSplitAt(b: seq<Entry>, k: nat)
    requires k < |b|
    ensures Lines(b) == Lines(b[..k]) + [Line(b[k])] + Lines(b[k + 1..])
  {
    SplitAt(b, k);
    LinesAround(b[..k], b[k], b[k + 1..]);
  }

  lemma LinesAround(front: seq<Entry>, x: Entry, back: seq<Entry>)
    ensures Lines(front + [x] + back) == Lines(front) + [Line(x)] + Lines(back)
  {
    LinesAppend(front + [x], back);
    LinesAppend(front, [x]);
    assert [x][..0] == [];
  }

  lemma MultisetAround<T>(front: seq<T>, x: T, back: seq<T>)
    ensures multiset(front + [x] + back) == multiset(front + back) + multiset{x}
  {
  }

  /** One type's section: its header, then one line per part of the type, ordered by
      description. */
  lemma SectionLayout(t: string, table: PartTable)
    requires WellFormed(table)
    ensures var s := Section(t, table);
      && s[0] == TypeHeader(t)
      && |s| == |table.order| + 1
      && (forall i :: 1 <= i < |s| ==> s[i].PartLine?)
      && (forall i, j :: 1 <= i < j < |s| ==> !Less(s[j].description, s[i].description))
  {
    var es := Entries(table);
    var sorted := SortBy(es, Description);
    var s := Section(t, table);
    SectionAt(t, table);
    assert |sorted| == |table.order| by {
      SortByPermutes(es, Description);
      EntriesListed(table.order, table.parts);
      assert |multiset(sorted)| == |multiset(es)|;
    }
    forall i, j | 1 <= i < j < |s| ensures !Less(s[j].description, s[i].description) {
      SortBySorted(es, Description);
      assert s[i].description == Description(sorted[i - 1]);
      assert s[j].description == Description(sorted[j - 1]);
    }
  }

  /** A section is its header followed by the line of each part in sorted order. */
  lemma SectionAt(t: string, table: PartTable)
    ensures var sorted := SortBy(Entries(table), Description);
      var s := Section(t, table);
      && |s| == |sorted| + 1 && s[0] == TypeHeader(t)
      && forall i :: 1 <= i < |s| ==> s[i] == Line(sorted[i - 1])
  {
    LinesAt(SortBy(Entries(table), Description));
  }

  /** The section's lines are the lines of all the type's parts, each once; parts with
      equal descriptions keep the order in which the dict first received them. */
  lemma SectionParts(t: string, table: PartTable)
    ensures multiset(Section(t, table)[1..]) == multiset(Lines(Entries(table)))
    ensures forall d :: Lines(WithKey(SortBy(Entries(table), Description), Description, d))
                     == Lines(WithKey(Entries(table), Description, d))
  {
    var es := Entries(table);
    var sorted := SortBy(es, Description);
    SortByPermutes(es, Description);
    SortByStable(es, Description);
    assert Section(t, table)[1..] == Lines(sorted);
    LinesPermute(sorted, es);
  }

  /** The number of parts of the types `types`, as listed by their dicts. */
  function PartCount(types: seq<string>, spares: TypeSpares): nat
    requires forall i :: 0 <= i < |types| ==> types[i] in spares
  {
    if types == [] then 0
    else PartCount(types[..|types| - 1], spares) + |spares[types[|types| - 1]].order|
  }

  /** The report has one row per equipment type and one per part. */
  lemma RowCount(spares: TypeSpares)
    requires forall t :: t in spares ==> WellFormed(spares[t])
    ensures |Output(spares)| == |spares.Keys| + PartCount(SortedSet(spares.Keys), spares)
  {
    SectionsSize(SortedSet(spares.Keys), spares);
  }

  lemma {:induction false} SectionsSize(types: seq<string>, spares: TypeSpares)
    requires forall i :: 0 <= i < |types| ==> types[i] in spares && WellFormed(spares[types[i]])
    ensures |Sections(types, spares)| == |types| + PartCount(types, spares)
  {
    if types != [] {
      var n := |types| - 1;
      SectionsSize(types[..n], spares);
      SectionLayout(types[n], spares[types[n]]);
    }
  }

  /** The report of a sheet's kept rows has one row per equipment type and one per
      (type, item no.) pair. */
  lemma ReportRowCount(uses: seq<Use>)
    ensures var spares := WithPeaks(Tally(uses), MachineTally(uses));
      |Output(spares)| == |spares.Keys| + PartCount(SortedSet(spares.Keys), spares)
  {
    TallyTables(uses);
    WithPeaksKeeps(Tally(uses), MachineTally(uses));
    RowCount(WithPeaks(Tally(uses), MachineTally(uses)));
  }
}
