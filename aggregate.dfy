/** The aggregator of `process_single_sheet`: the row loop that fills `type_spares`
    (per equipment type, per item number: totals, models, serials, last description and
    price) and `per_machine_spares` (per equipment type, the spare quantity summed per
    item number and serial), and the second pass that sets each part's
    "Max Spare Per Machine". */
module Aggregate {
  import opened Wrappers
  import opened Reference
  import opened Rows

  /** One entry `type_spares[equip_type][item_no]`. */
  datatype Part = Part(
    itemNo: string,
    description: string,
    unitPrice: Option<real>,
    totalQty: int,
    models: set<string>,
    serials: set<string>,
    maxSpare: int)

  /** `type_spares[equip_type]`, a dict: its keys in insertion order and its entries. */
  datatype PartTable = PartTable(order: seq<string>, parts: map<string, Part>)

  /** `type_spares`. */
  type TypeSpares = map<string, PartTable>

  /** `per_machine_spares`: per equipment type, (item no., serial) to summed spare qty. */
  type MachineSpares = map<string, map<(string, string), int>>

  /** The value the `defaultdict` factory creates for a new part; every field but the
      running total, the two sets and the peak is overwritten by the row that creates it. */
  const NEW_PART := Part("", "", None, 0, {}, {}, 0)

  /** The dict's key order lists each key once, and only keys. */
  ghost predicate WellFormed(table: PartTable) {
    && (forall i, j :: 0 <= i < j < |table.order| ==> table.order[i] != table.order[j])
    && (forall item :: item in table.order <==> item in table.parts)
  }

  /** One kept row's effect on `type_spares`. */
  function Record(spares: TypeSpares, u: Use): TypeSpares {
    var table := if u.equipType in spares then spares[u.equipType] else PartTable([], map[]);
    var isNew := u.itemNo !in table.parts;
    var part := if isNew then NEW_PART else table.parts[u.itemNo];
    var updated := Part(u.itemNo, u.description, u.unitPrice, part.totalQty + u.totalQty,
                        part.models + {u.model}, part.serials + {u.serial}, part.maxSpare);
    var order := if isNew then table.order + [u.itemNo] else table.order;
    spares[u.equipType := PartTable(order, table.parts[u.itemNo := updated])]
  }

  /** One kept row's effect on `per_machine_spares`. */
  function RecordSpare(machines: MachineSpares, u: Use): MachineSpares {
    var perType := if u.equipType in machines then machines[u.equipType] else map[];
    var key := (u.itemNo, u.serial);
    var sum := if key in perType then perType[key] else 0;
    machines[u.equipType := perType[key := sum + u.spareQty]]
  }

  /** `type_spares` after the row loop has recorded `uses`. */
  function Tally(uses: seq<Use>): TypeSpares {
    if uses == [] then map[] else Record(Tally(uses[..|uses| - 1]), uses[|uses| - 1])
  }

  /** `per_machine_spares` after the row loop has recorded `uses`. */
  function MachineTally(uses: seq<Use>): MachineSpares {
    if uses == [] then map[] else RecordSpare(MachineTally(uses[..|uses| - 1]), uses[|uses| - 1])
  }

  // Independent descriptions of the aggregates over the kept usages.

  /** The usages of equipment type `t` and item number `item`, in order. */
  function Matching(uses: seq<Use>, t: string, item: string): seq<Use> {
    if uses == [] then []
    else
      var u := uses[|uses| - 1];
      Matching(uses[..|uses| - 1], t, item) + (if u.equipType == t && u.itemNo == item then [u] else [])
  }

  function TotalOf(us: seq<Use>): int {
    if us == [] then 0 else TotalOf(us[..|us| - 1]) + us[|us| - 1].totalQty
  }

  /** The spare quantity of the usages on machine `serial`. */
  function SpareOf(us: seq<Use>, serial: string): int {
    if us == [] then 0
    else SpareOf(us[..|us| - 1], serial) + (if us[|us| - 1].serial == serial then us[|us| - 1].spareQty else 0)
  }

  function ModelsOf(us: seq<Use>): set<string> {
    if us == [] then {} else ModelsOf(us[..|us| - 1]) + {us[|us| - 1].model}
  }

  function SerialsOf(us: seq<Use>): set<string> {
    if us == [] then {} else SerialsOf(us[..|us| - 1]) + {us[|us| - 1].serial}
  }

  lemma {:induction false} SerialsOfMembers(us: seq<Use>, serial: string)
    ensures serial in SerialsOf(us) <==> exists u :: u in us && u.serial == serial
  {
    if us != [] {
      var n := |us| - 1;
      SerialsOfMembers(us[..n], serial);
      assert us == us[..n] + [us[n]];
    }
  }

  lemma {:induction false} ModelsOfMembers(us: seq<Use>, model: string)
    ensures model in ModelsOf(us) <==> exists u :: u in us && u.model == model
  {
    if us != [] {
      var n := |us| - 1;
      ModelsOfMembers(us[..n], model);
      assert us == us[..n] + [us[n]];
    }
  }

  lemma {:induction false} SpareOfAbsent(us: seq<Use>, serial: string)
    requires serial !in SerialsOf(us)
    ensures SpareOf(us, serial) == 0
  {
    if us != [] {
      SpareOfAbsent(us[..|us| - 1], serial);
    }
  }

  lemma MatchingMembers(uses: seq<Use>, t: string, item: string)
    ensures forall u :: u in Matching(uses, t, item) <==> u in uses && u.equipType == t && u.itemNo == item
  {
    if uses != [] {
      var n := |uses| - 1;
      MatchingMembers(uses[..n], t, item);
      assert uses == uses[..n] + [uses[n]];
    }
  }

  /** The entry `spares[t].parts[item]` summarises the usages `m` of that pair: it exists
      exactly when there is one, and then holds the sum of their total quantities, the
      models and serials they carry, the description and unit price of the last of them,
      and a peak not yet computed. */
  ghost predicate Summarises(spares: TypeSpares, m: seq<Use>, t: string, item: string) {
    && ((t in spares && item in spares[t].parts) <==> m != [])
    && (m != [] ==>
      var p := spares[t].parts[item];
      && p.itemNo == item
      && p.description == m[|m| - 1].description
      && p.unitPrice == m[|m| - 1].unitPrice
      && p.totalQty == TotalOf(m)
      && p.models == ModelsOf(m)
      && p.serials == SerialsOf(m)
      && p.maxSpare == 0)
  }

  /** Each (equipment type, item no.) entry of `type_spares` summarises the kept rows of
      that pair. */
  lemma {:induction false} TallyCharacterised(uses: seq<Use>, t: string, item: string)
    ensures Summarises(Tally(uses), Matching(uses, t, item), t, item)
  {
    if uses != [] {
      var prefix, u := uses[..|uses| - 1], uses[|uses| - 1];
      TallyCharacterised(prefix, t, item);
      RecordSummarises(Tally(prefix), Matching(prefix, t, item), u, t, item);
    }
  }

  /** Recording one more usage keeps the entry a summary of the usages of its pair. */
  lemma RecordSummarises(prev: TypeSpares, before: seq<Use>, u: Use, t: string, item: string)
    requires Summarises(prev, before, t, item)
    ensures Summarises(Record(prev, u), before + (if u.equipType == t && u.itemNo == item then [u] else []), t, item)
  {
    if u.equipType == t && u.itemNo == item {
      RecordAdds(prev, u);
      FoldsStep(before, u, t, item, u.serial);
    } else {
      assert before + [] == before;
      RecordKeeps(prev, u, t, item);
    }
  }

  /** Recording a usage of another (type, item) pair leaves that pair's entry alone. */
  lemma RecordKeeps(prev: TypeSpares, u: Use, t: string, item: string)
    requires !(u.equipType == t && u.itemNo == item)
    ensures (t in Record(prev, u) && item in Record(prev, u)[t].parts) <==> (t in prev && item in prev[t].parts)
    ensures t in prev && item in prev[t].parts ==> Record(prev, u)[t].parts[item] == prev[t].parts[item]
  {
  }

  /** Recording a usage updates its own pair's entry, creating it from `NEW_PART`. */
  lemma RecordAdds(prev: TypeSpares, u: Use)
    ensures u.equipType in Record(prev, u) && u.itemNo in Record(prev, u)[u.equipType].parts
    ensures var was := if u.equipType in prev && u.itemNo in prev[u.equipType].parts
                       then prev[u.equipType].parts[u.itemNo] else NEW_PART;
      Record(prev, u)[u.equipType].parts[u.itemNo] ==
        Part(u.itemNo, u.description, u.unitPrice, was.totalQty + u.totalQty,
             was.models + {u.model}, was.serials + {u.serial}, was.maxSpare)
  {
  }

  /** The types of `type_spares` are the types of the kept rows, and every type's dict is
      well formed and not empty. */
  lemma {:induction false} TallyTables(uses: seq<Use>)
    ensures forall t :: t in Tally(uses) <==> exists u :: u in uses && u.equipType == t
    ensures forall t :: t in Tally(uses) ==> WellFormed(Tally(uses)[t]) && Tally(uses)[t].order != []
    ensures forall t :: t in Tally(uses) ==> Tally(uses)[t].order == FirstItems(uses, t)
  {
    TallyOrder(uses);
    if uses != [] {
      var prefix, u := uses[..|uses| - 1], uses[|uses| - 1];
      TallyTables(prefix);
      RecordTables(Tally(prefix), u);
      assert uses == prefix + [u];
      forall t ensures t in Tally(uses) <==> exists v :: v in uses && v.equipType == t {
        if exists v :: v in uses && v.equipType == t {
          var v :| v in uses && v.equipType == t;
          assert v in prefix || v == u;
        }
      }
    }
  }

  /** The item nos of the usages of type `t`, each where it first occurs, in order. */
  function FirstItems(uses: seq<Use>, t: string): seq<string> {
    if uses == [] then []
    else
      var prefix, u := uses[..|uses| - 1], uses[|uses| - 1];
      FirstItems(prefix, t) + (if u.equipType == t && Matching(prefix, t, u.itemNo) == [] then [u.itemNo] else [])
  }

  /** The key order of type `t`'s dict, empty while the type has none. */
  function OrderOf(spares: TypeSpares, t: string): seq<string> {
    if t in spares then spares[t].order else []
  }

  /** Each type's dict lists its item nos in the order of their first kept rows. */
  lemma {:induction false} TallyOrder(uses: seq<Use>)
    ensures forall t :: OrderOf(Tally(uses), t) == FirstItems(uses, t)
  {
    if uses != [] {
      var prefix, u := uses[..|uses| - 1], uses[|uses| - 1];
      TallyOrder(prefix);
      forall t ensures OrderOf(Tally(uses), t) == FirstItems(uses, t) {
        RecordOrder(Tally(prefix), u, t);
        TallyCharacterised(prefix, t, u.itemNo);
      }
    }
  }

  /** Recording a usage appends its item no. to its type's key order when it is new. */
  lemma RecordOrder(prev: TypeSpares, u: Use, t: string)
    ensures OrderOf(Record(prev, u), t) == OrderOf(prev, t) +
      (if u.equipType == t && !(t in prev && u.itemNo in prev[t].parts) then [u.itemNo] else [])
  {
  }

  /** Recording a usage adds its type, if new, and keeps every dict well formed and not
      empty. */
  lemma RecordTables(prev: TypeSpares, u: Use)
    requires forall t :: t in prev ==> WellFormed(prev[t]) && prev[t].order != []
    ensures forall t :: t in Record(prev, u) <==> t in prev || t == u.equipType
    ensures forall t :: t in Record(prev, u) ==> WellFormed(Record(prev, u)[t]) && Record(prev, u)[t].order != []
  {
    var table := if u.equipType in prev then prev[u.equipType] else PartTable([], map[]);
    assert WellFormed(table);
    if u.itemNo !in table.parts {
      var order := table.order + [u.itemNo];
      assert forall i :: 0 <= i < |table.order| ==> order[i] == table.order[i];
    }
  }

  /** Each (equipment type, (item no., serial)) entry of `per_machine_spares` exists
      exactly when that machine has a kept row of that part, and then holds that
      machine's summed spare quantity for the part. */
  lemma {:induction false} MachineTallyCharacterised(uses: seq<Use>, t: string, item: string, serial: string)
    ensures t in MachineTally(uses) <==> t in Tally(uses)
    ensures t in MachineTally(uses) ==>
      ((item, serial) in MachineTally(uses)[t] <==> serial in SerialsOf(Matching(uses, t, item)))
    ensures t in MachineTally(uses) && (item, serial) in MachineTally(uses)[t] ==>
      MachineTally(uses)[t][(item, serial)] == SpareOf(Matching(uses, t, item), serial)
  {
    if uses != [] {
      var n := |uses| - 1;
      var u := uses[n];
      MachineTallyCharacterised(uses[..n], t, item, serial);
      TallyCharacterised(uses[..n], t, item);
      var before := Matching(uses[..n], t, item);
      var prev := MachineTally(uses[..n]);
      if u.equipType == t && u.itemNo == item {
        var m := before + [u];
        assert Matching(uses, t, item) == m;
        assert m[..|m| - 1] == before;
        assert SerialsOf(m) == SerialsOf(before) + {u.serial};
        assert SpareOf(m, serial) == SpareOf(before, serial) + (if u.serial == serial then u.spareQty else 0);
        if serial !in SerialsOf(before) {
          SpareOfAbsent(before, serial);
        }
      } else {
        assert Matching(uses, t, item) == before;
        if t in prev && (item, serial) in prev[t] {
          assert MachineTally(uses)[t][(item, serial)] == prev[t][(item, serial)];
        }
      }
    }
  }

  // The second pass: the peak per machine.

  /** `m` is the value the second pass computes for `item` from the per-machine sums of
      its equipment type: the largest of 0 and those sums. */
  ghost predicate IsPeak(perType: map<(string, string), int>, item: string, m: int) {
    && m >= 0
    && (forall key :: key in perType && key.0 == item ==> perType[key] <= m)
    && (m == 0 || exists key :: key in perType && key.0 == item && perType[key] == m)
  }

  lemma PeakUnique(perType: map<(string, string), int>, item: string, m1: int, m2: int)
    requires IsPeak(perType, item, m1) && IsPeak(perType, item, m2)
    ensures m1 == m2
  {
  }

  /** The largest of 0 and the sums for `item` among the keys `keys`. */
  ghost function PeakAmong(perType: map<(string, string), int>, item: string, keys: set<(string, string)>): int
    requires keys <= perType.Keys
  {
    if keys == {} then 0
    else
      var key :| key in keys;
      var rest := PeakAmong(perType, item, keys - {key});
      if key.0 == item && perType[key] > rest then perType[key] else rest
  }

  lemma {:induction false} PeakAmongCorrect(perType: map<(string, string), int>, item: string, keys: set<(string, string)>)
    requires keys <= perType.Keys
    ensures var m := PeakAmong(perType, item, keys);
      && m >= 0
      && (forall key :: key in keys && key.0 == item ==> perType[key] <= m)
      && (m == 0 || exists key :: key in keys && key.0 == item && perType[key] == m)
  {
    if keys != {} {
      var key :| key in keys && PeakAmong(perType, item, keys) ==
        var rest := PeakAmong(perType, item, keys - {key});
        if key.0 == item && perType[key] > rest then perType[key] else rest;
      PeakAmongCorrect(perType, item, keys - {key});
    }
  }

  /** The value the second pass computes for `item`. */
  ghost function Peak(perType: map<(string, string), int>, item: string): int {
    PeakAmong(perType, item, perType.Keys)
  }

  lemma PeakCorrect(perType: map<(string, string), int>, item: string)
    ensures IsPeak(perType, item, Peak(perType, item))
  {
    PeakAmongCorrect(perType, item, perType.Keys);
  }

  /** The innermost loop of the second pass: `max_spare` over the per-machine sums of
      the item's equipment type. */
  method MaxSpareFor(perType: map<(string, string), int>, item: string) returns (maxSpare: int)
    ensures IsPeak(perType, item, maxSpare)
  {
    maxSpare := 0;
    var todo := perType.Keys;
    while todo != {}
      invariant todo <= perType.Keys
      invariant maxSpare >= 0
      invariant forall key :: key in perType.Keys - todo && key.0 == item ==> perType[key] <= maxSpare
      invariant maxSpare == 0 || exists key :: key in perType && key.0 == item && perType[key] == maxSpare
      decreases todo
    {
      var key :| key in todo;
      var (ino, _) := key;
      if ino == item {
        maxSpare := if perType[key] > maxSpare then perType[key] else maxSpare;
      }
      todo := todo - {key};
    }
  }

  /** `per_machine_spares[equip_type]`: a missing type reads as an empty dict. */
  function PerType(machines: MachineSpares, t: string): map<(string, string), int> {
    if t in machines then machines[t] else map[]
  }

  /** A part table after the second pass. */
  ghost function PeakTable(table: PartTable, perType: map<(string, string), int>): PartTable {
    PartTable(table.order, map item | item in table.parts :: table.parts[item].(maxSpare := Peak(perType, item)))
  }

  /** `type_spares` after the second pass. */
  ghost function WithPeaks(spares: TypeSpares, machines: MachineSpares): TypeSpares {
    map t | t in spares :: PeakTable(spares[t], PerType(machines, t))
  }

  /** The middle loop of the second pass, over one equipment type's parts. */
  method FillTable(table: PartTable, perType: map<(string, string), int>) returns (filled: PartTable)
    ensures filled == PeakTable(table, perType)
  {
    ghost var target := PeakTable(table, perType).parts;
    var parts := table.parts;
    var todo := table.parts.Keys;
    while todo != {}
      invariant todo <= table.parts.Keys && parts.Keys == table.parts.Keys
      invariant forall item :: item in todo ==> parts[item] == table.parts[item]
      invariant forall item :: item in table.parts.Keys - todo ==> parts[item] == target[item]
      decreases todo
    {
      var item :| item in todo;
      parts := SetPeak(parts, perType, item);
      todo := todo - {item};
    }
    filled := PartTable(table.order, parts);
  }

  /** One pass of the middle loop: `data["Max Spare Per Machine"] = max_spare`. */
  method SetPeak(parts: map<string, Part>, perType: map<(string, string), int>, item: string)
    returns (parts': map<string, Part>)
    requires item in parts
    ensures parts' == parts[item := parts[item].(maxSpare := Peak(perType, item))]
  {
    var maxSpare := MaxSpareFor(perType, item);
    PeakCorrect(perType, item);
    PeakUnique(perType, item, maxSpare, Peak(perType, item));
    parts' := parts[item := parts[item].(maxSpare := maxSpare)];
  }

  /** The second pass: sets every part's "Max Spare Per Machine". */
  method FillMaxSpare(spares: TypeSpares, machines: MachineSpares) returns (filled: TypeSpares)
    ensures filled == WithPeaks(spares, machines)
  {
    filled := spares;
    var todo := spares.Keys;
    while todo != {}
      invariant todo <= spares.Keys && filled.Keys == spares.Keys
      invariant forall t :: t in todo ==> filled[t] == spares[t]
      invariant forall t :: t in spares.Keys - todo ==> filled[t] == PeakTable(spares[t], PerType(machines, t))
      decreases todo
    {
      var t :| t in todo;
      var perType := if t in machines then machines[t] else map[];
      var table := FillTable(filled[t], perType);
      filled := filled[t := table];
      todo := todo - {t};
    }
  }

  /** The updates of both dicts for one kept row. */
  method RecordRow(spares: TypeSpares, machines: MachineSpares, u: Use)
    returns (spares': TypeSpares, machines': MachineSpares)
    ensures spares' == Record(spares, u) && machines' == RecordSpare(machines, u)
  {
    var table := if u.equipType in spares then spares[u.equipType] else PartTable([], map[]);
    var isNew := u.itemNo !in table.parts;
    var part := if isNew then NEW_PART else table.parts[u.itemNo];
    var order := if isNew then table.order + [u.itemNo] else table.order;
    part := part.(itemNo := u.itemNo, description := u.description, unitPrice := u.unitPrice,
                  totalQty := part.totalQty + u.totalQty,
                  models := part.models + {u.model}, serials := part.serials + {u.serial});
    spares' := spares[u.equipType := PartTable(order, table.parts[u.itemNo := part])];

    var perType := if u.equipType in machines then machines[u.equipType] else map[];
    var key := (u.itemNo, u.serial);
    var sum := if key in perType then perType[key] else 0;
    machines' := machines[u.equipType := perType[key := sum + u.spareQty]];
  }

  /** The row loop of `process_single_sheet`: walks the rows with the `last_serial` and
      `skip_next` state, drops block headers and non-part rows, and records every other
      row in both dicts. */
  method AccumulateRows(rows: seq<Row>, toModel: map<string, string>, toType: map<string, string>)
    returns (typeSpares: TypeSpares, perMachine: MachineSpares)
    ensures typeSpares == Tally(Uses(rows, toModel, toType))
    ensures perMachine == MachineTally(Uses(rows, toModel, toType))
  {
    typeSpares, perMachine := map[], map[];
    var lastSerial := NoRowYet;
    var skipNext := false;
    ghost var done: seq<Use> := [];
    for i := 0 to |rows|
      invariant lastSerial == LastBefore(rows, i) && !skipNext
      invariant done == Uses(rows[..i], toModel, toType)
      invariant typeSpares == Tally(done) && perMachine == MachineTally(done)
    {
      UsesStep(rows, i, toModel, toType);
      var row := rows[i];
      var serial := row.serial;
      if SerialChanged(serial, lastSerial) {
        lastSerial := Seen(serial);
        skipNext := true;
      }
      if skipNext {
        skipNext := false;
        assert OpensBlock(rows, i);
        continue;
      }
      var s := serial.value;
      var model := ModelFor(toModel, s);
      var equipType := TypeFor(toType, s);
      var totalQty := Coerce(row.totalQty);
      var spareQty := Coerce(row.spareQty);
      if row.itemNo.None? || row.description.None? {
        assert !IsPartRow(rows[i]);
        continue;
      }
      var itemNo := row.itemNo.value;
      if IsTbd(itemNo) {
        assert !IsPartRow(rows[i]);
        continue;
      }
      var u := Use(s, model, equipType, itemNo, row.description.value, row.unitPrice, totalQty, spareQty);
      assert Kept(rows, i) && u == UseOf(row, toModel, toType);
      assert (done + [u])[..|done|] == done;
      typeSpares, perMachine := RecordRow(typeSpares, perMachine, u);
      done := done + [u];
    }
    assert rows[..|rows|] == rows;
  }

  /** "Max Spare Per Machine" of each part is the largest of 0 and, over the machines
      that have the part, that machine's spare quantity summed over all its kept rows of
      the part: quantities are summed per machine before the maximum is taken. */
  lemma PeakIsBusiestMachine(uses: seq<Use>, t: string, item: string)
    requires t in Tally(uses) && item in Tally(uses)[t].parts
    ensures var m := Matching(uses, t, item);
      var p := WithPeaks(Tally(uses), MachineTally(uses))[t].parts[item];
      && p.maxSpare >= 0
      && (forall s :: s in SerialsOf(m) ==> SpareOf(m, s) <= p.maxSpare)
      && (p.maxSpare == 0 || exists s :: s in SerialsOf(m) && SpareOf(m, s) == p.maxSpare)
  {
    var m := Matching(uses, t, item);
    TallyCharacterised(uses, t, item);
    MachineTallyCharacterised(uses, t, item, "");
    var perType := PerType(MachineTally(uses), t);
    var peak := Peak(perType, item);
    PeakCorrect(perType, item);
    assert WithPeaks(Tally(uses), MachineTally(uses))[t].parts[item].maxSpare == peak;
    forall s | s in SerialsOf(m) ensures SpareOf(m, s) <= peak {
      MachineTallyCharacterised(uses, t, item, s);
      assert (item, s) in perType;
    }
    if peak != 0 {
      var key :| key in perType && key.0 == item && perType[key] == peak;
      MachineTallyCharacterised(uses, t, item, key.1);
      assert key == (item, key.1);
    }
  }

  /** The second pass changes nothing but the peaks: the same types, each with the same
      dict keys in the same order, every other field of every part kept. */
  lemma WithPeaksKeeps(spares: TypeSpares, machines: MachineSpares)
    ensures WithPeaks(spares, machines).Keys == spares.Keys
    ensures forall t :: t in spares ==>
      var was, now := spares[t], WithPeaks(spares, machines)[t];
      && now.order == was.order && now.parts.Keys == was.parts.Keys
      && (WellFormed(was) ==> WellFormed(now))
      && forall item :: item in was.parts ==> now.parts[item] == was.parts[item].(maxSpare := now.parts[item].maxSpare)
  {
  }

  /** Two machine blocks, each opened by a header row: S1 uses part P1 on two rows
      (spare 1 and 1), S2 on one row (spare 3). */
  const BLOCK_EXAMPLE: seq<Row> := [
    Row(Some("S1"), NotNumber, NotNumber, None, None, None),
    Row(Some("S1"), Count(2), Count(1), Some("P1"), Some("Bearing"), None),
    Row(Some("S1"), Count(1), Count(1), Some("P1"), Some("Bearing"), None),
    Row(Some("S2"), NotNumber, NotNumber, None, None, None),
    Row(Some("S2"), Count(5), Count(3), Some("P1"), Some("Bearing"), None)]

  const EXAMPLE_USES: seq<Use> := [
    Use("S1", MODEL_MISSING, TYPE_MISSING, "P1", "Bearing", None, 2, 1),
    Use("S1", MODEL_MISSING, TYPE_MISSING, "P1", "Bearing", None, 1, 1),
    Use("S2", MODEL_MISSING, TYPE_MISSING, "P1", "Bearing", None, 5, 3)]

  /** The header rows are dropped and the three part rows kept; with no serial in the
      reference table, model and type are the sentinels. */
  lemma BlockExampleUses()
    ensures Uses(BLOCK_EXAMPLE, map[], map[]) == EXAMPLE_USES
  {
    var rows := BLOCK_EXAMPLE;
    var u1, u2, u3 := EXAMPLE_USES[0], EXAMPLE_USES[1], EXAMPLE_USES[2];
    ExampleRowsKept();
    assert Uses(rows[..2], map[], map[]) == [u1] by {
      assert rows[..0] == [];
      UsesStep(rows, 0, map[], map[]);
      UsesStep(rows, 1, map[], map[]);
    }
    assert Uses(rows[..3], map[], map[]) == [u1, u2] by {
      UsesStep(rows, 2, map[], map[]);
    }
    assert Uses(rows[..5], map[], map[]) == [u1, u2, u3] by {
      UsesStep(rows, 3, map[], map[]);
      UsesStep(rows, 4, map[], map[]);
    }
    assert rows[..5] == rows;
  }

  lemma ExampleRowsKept()
    ensures !Kept(BLOCK_EXAMPLE, 0) && !Kept(BLOCK_EXAMPLE, 3)
    ensures Kept(BLOCK_EXAMPLE, 1) && UseOf(BLOCK_EXAMPLE[1], map[], map[]) == EXAMPLE_USES[0]
    ensures Kept(BLOCK_EXAMPLE, 2) && UseOf(BLOCK_EXAMPLE[2], map[], map[]) == EXAMPLE_USES[1]
    ensures Kept(BLOCK_EXAMPLE, 4) && UseOf(BLOCK_EXAMPLE[4], map[], map[]) == EXAMPLE_USES[2]
  {
    assert !IsTbd("P1") by {
      PlaceholderSpellings("P1");
    }
  }

  /** The per-part folds over one more usage. */
  lemma FoldsStep(us: seq<Use>, u: Use, t: string, item: string, serial: string)
    ensures Matching(us + [u], t, item) == Matching(us, t, item) + (if u.equipType == t && u.itemNo == item then [u] else [])
    ensures TotalOf(us + [u]) == TotalOf(us) + u.totalQty
    ensures ModelsOf(us + [u]) == ModelsOf(us) + {u.model}
    ensures SerialsOf(us + [u]) == SerialsOf(us) + {u.serial}
    ensures SpareOf(us + [u], serial) == SpareOf(us, serial) + (if u.serial == serial then u.spareQty else 0)
  {
    assert (us + [u])[..|us|] == us;
  }

  /** The example's usages summed per part and per machine. */
  lemma BlockExampleSums()
    ensures Matching(EXAMPLE_USES, TYPE_MISSING, "P1") == EXAMPLE_USES && TotalOf(EXAMPLE_USES) == 8
    ensures SerialsOf(EXAMPLE_USES) == {"S1", "S2"}
    ensures SpareOf(EXAMPLE_USES, "S1") == 2 && SpareOf(EXAMPLE_USES, "S2") == 3
  {
    var u1, u2, u3 := EXAMPLE_USES[0], EXAMPLE_USES[1], EXAMPLE_USES[2];
    assert EXAMPLE_USES == [u1, u2] + [u3] && [u1, u2] == [u1] + [u2] && [u1] == [] + [u1];
    assert Matching(EXAMPLE_USES, TYPE_MISSING, "P1") == EXAMPLE_USES && TotalOf(EXAMPLE_USES) == 8
        && SerialsOf(EXAMPLE_USES) == {"S1", "S2"} && SpareOf(EXAMPLE_USES, "S1") == 2 by {
      FoldsStep([], u1, TYPE_MISSING, "P1", "S1");
      FoldsStep([u1], u2, TYPE_MISSING, "P1", "S1");
      FoldsStep([u1, u2], u3, TYPE_MISSING, "P1", "S1");
    }
    assert SpareOf(EXAMPLE_USES, "S2") == 3 by {
      FoldsStep([], u1, TYPE_MISSING, "P1", "S2");
      FoldsStep([u1], u2, TYPE_MISSING, "P1", "S2");
      FoldsStep([u1, u2], u3, TYPE_MISSING, "P1", "S2");
    }
  }

  /** Folded: P1 is recorded under the type sentinel with total 2 + 1 + 5 = 8, two
      machines, and peak max(1 + 1, 3) = 3. */
  lemma BlockExampleTotals(uses: seq<Use>)
    requires Matching(uses, TYPE_MISSING, "P1") == uses && TotalOf(uses) == 8
    requires SerialsOf(uses) == {"S1", "S2"} && SpareOf(uses, "S1") == 2 && SpareOf(uses, "S2") == 3
    ensures var spares := WithPeaks(Tally(uses), MachineTally(uses));
      && TYPE_MISSING in spares && "P1" in spares[TYPE_MISSING].parts
      && spares[TYPE_MISSING].parts["P1"].totalQty == 8
      && spares[TYPE_MISSING].parts["P1"].serials == {"S1", "S2"}
      && spares[TYPE_MISSING].parts["P1"].maxSpare == 3
  {
    TallyCharacterised(uses, TYPE_MISSING, "P1");
    PeakIsBusiestMachine(uses, TYPE_MISSING, "P1");
    assert "S2" in SerialsOf(uses);
  }

  /** The worked example end to end, from the rows. */
  lemma BlockExample()
    ensures var uses := Uses(BLOCK_EXAMPLE, map[], map[]);
      var spares := WithPeaks(Tally(uses), MachineTally(uses));
      && TYPE_MISSING in spares && "P1" in spares[TYPE_MISSING].parts
      && spares[TYPE_MISSING].parts["P1"].totalQty == 8
      && |spares[TYPE_MISSING].parts["P1"].serials| == 2
      && spares[TYPE_MISSING].parts["P1"].maxSpare == 3
  {
    BlockExampleUses();
    BlockExampleSums();
    BlockExampleTotals(Uses(BLOCK_EXAMPLE, map[], map[]));
  }
}
