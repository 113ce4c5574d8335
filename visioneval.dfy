/**
 * The VisionEval tables of src/analysis/visioneval/index.ts: NTD records
 * read from the fetched values, vehicle revenue miles per urbanized area,
 * year and VisionEval mode, cost per revenue mile per year and mode, and
 * the report summary.
 *
 * Amounts are abstract reals: `parseFloat` is a parameter and rounding is
 * not modelled.  `localeCompare` is a parameter whose sign is antisymmetric.
 */
module VisionEval {
  import opened Wrappers
  import opened InsertionOrder
  import opened StableSort
  import JsNum
  import CoreDatetime
  import Ntd

  // ---------------------------------------------------------------------
  // Modes
  // ---------------------------------------------------------------------

  /** The VisionEval modes, in the column order of the marea table. */
  const VisionEvalModes: seq<string> := ["DR", "VP", "MB", "RB", "MG", "SR", "HR", "CR"]

  /** `NTD_TO_VISIONEVAL_MODE`, entry by entry. */
  const ModeTable: seq<(string, string)> :=
    [("DR", "DR"), ("VP", "VP"), ("MB", "MB"), ("CB", "RB"), ("MG", "MG"),
     ("SR", "SR"), ("TB", "SR"), ("HR", "HR"), ("LR", "HR"), ("CR", "CR")]

  /** The value of the first entry of `table` for `key`. */
  function Lookup(table: seq<(string, string)>, key: string): (r: Option<string>) {
    if table == [] then None
    else if table[0].0 == key then Some(table[0].1)
    else Lookup(table[1..], key)
  }

  /** `NTD_TO_VISIONEVAL_MODE[mode]`: ten NTD modes are mapped, every other mode is skipped. */
  function VisionEvalMode(mode: string): (r: Option<string>) {
    Lookup(ModeTable, mode)
  }

  /** A key has a value exactly when some entry has that key, and the value is that entry's. */
  lemma {:induction false} LookupEntry(table: seq<(string, string)>, key: string)
    ensures Lookup(table, key).Some? <==> key in Keys(table)
    ensures Lookup(table, key).Some? ==> (key, Lookup(table, key).value) in table
  {
    if table != [] {
      LookupEntry(table[1..], key);
      assert Keys(table) == [table[0].0] + Keys(table[1..]);
    }
  }

  /** Exactly the ten NTD modes of the table are mapped. */
  lemma VisionEvalModeDomain(mode: string)
    ensures VisionEvalMode(mode).Some? <==> mode in ["DR", "VP", "MB", "CB", "MG", "SR", "TB", "HR", "LR", "CR"]
  {
    LookupEntry(ModeTable, mode);
    assert Keys(ModeTable) == ["DR", "VP", "MB", "CB", "MG", "SR", "TB", "HR", "LR", "CR"];
  }

  /** Commuter bus becomes bus rapid transit, trolleybus streetcar and light rail heavy rail. */
  lemma VisionEvalModeRemaps()
    ensures VisionEvalMode("CB") == Some("RB") && VisionEvalMode("TB") == Some("SR") && VisionEvalMode("LR") == Some("HR")
  {
    CommuterBusRemap();
    TrolleybusRemap();
    LightRailRemap();
  }

  lemma CommuterBusRemap()
    ensures VisionEvalMode("CB") == Some("RB")
  {
    LookupFirst(ModeTable, 3);
  }

  lemma TrolleybusRemap()
    ensures VisionEvalMode("TB") == Some("SR")
  {
    LookupFirst(ModeTable, 6);
  }

  lemma LightRailRemap()
    ensures VisionEvalMode("LR") == Some("HR")
  {
    LookupFirst(ModeTable, 8);
  }

  /** The first entry with a key gives its value. */
  lemma {:induction false} LookupFirst(table: seq<(string, string)>, i: nat)
    requires i < |table| && forall j :: 0 <= j < i ==> table[j].0 != table[i].0
    ensures Lookup(table, table[i].0) == Some(table[i].1)
  {
    if i > 0 {
      LookupFirst(table[1..], i - 1);
    }
  }

  /** Every other mapped mode keeps its code, and every mapped mode is a VisionEval mode. */
  lemma VisionEvalModeValues(mode: string)
    ensures VisionEvalMode(mode).Some? && mode !in ["CB", "TB", "LR"] ==> VisionEvalMode(mode) == Some(mode)
    ensures VisionEvalMode(mode).Some? ==> VisionEvalMode(mode).value in VisionEvalModes
  {
    LookupEntry(ModeTable, mode);
    if VisionEvalMode(mode).Some? {
      var i :| 0 <= i < |ModeTable| && ModeTable[i] == (mode, VisionEvalMode(mode).value);
      ModeTableEntry(i);
    }
  }

  lemma ModeTableEntry(i: nat)
    requires i < |ModeTable|
    ensures ModeTable[i].1 in VisionEvalModes
    ensures ModeTable[i].0 in ["CB", "TB", "LR"] || ModeTable[i].0 == ModeTable[i].1
  {
  }

  // ---------------------------------------------------------------------
  // Records
  // ---------------------------------------------------------------------

  datatype NtdFields = NtdFields(ntdId: string, reportYear: string, mode: string, typeOfService: string,
                                 vehicleRevenueMiles: string, totalOperatingExpenses: string,
                                 agency: string, state: string, uzaName: string)

  const DefaultFields := NtdFields("ntd_id", "report_year", "mode", "type_of_service", "Vehicle Revenue Miles",
                                   "Operating Expenses", "agency_name", "state", "primary_uza_name")

  /** `config.ntdFields`; `None` is a field name left out. */
  datatype FieldOverrides = FieldOverrides(ntdId: Option<string>, reportYear: Option<string>, mode: Option<string>,
                                           typeOfService: Option<string>, vehicleRevenueMiles: Option<string>,
                                           totalOperatingExpenses: Option<string>, agency: Option<string>,
                                           state: Option<string>, uzaName: Option<string>)

  datatype VisionEvalConfig = VisionEvalConfig(state: string, year: int, ntdFields: Option<FieldOverrides>)

  /** Each field name is `config.ntdFields?.<field> ?? <default>`. */
  function ResolveFields(config: VisionEvalConfig): (f: NtdFields)
    ensures config.ntdFields.None? ==> f == DefaultFields
  {
    match config.ntdFields
    case None => DefaultFields
    case Some(o) =>
      NtdFields(o.ntdId.GetOr(DefaultFields.ntdId), o.reportYear.GetOr(DefaultFields.reportYear),
                o.mode.GetOr(DefaultFields.mode), o.typeOfService.GetOr(DefaultFields.typeOfService),
                o.vehicleRevenueMiles.GetOr(DefaultFields.vehicleRevenueMiles),
                o.totalOperatingExpenses.GetOr(DefaultFields.totalOperatingExpenses),
                o.agency.GetOr(DefaultFields.agency), o.state.GetOr(DefaultFields.state),
                o.uzaName.GetOr(DefaultFields.uzaName))
  }

  /** One processed record; a `None` year is NaN. */
  datatype NtdRecord = NtdRecord(ntdId: string, year: Option<int>, mode: string, typeOfService: string,
                                 agency: string, state: string, uzaName: string,
                                 vehicleRevenueMiles: real, totalOperatingExpenses: real)

  /** `parseFloat(String(value.values[name] || 0)) || 0`; `parseFloat` gives `None` for NaN. */
  function Amount(v: Ntd.RawValue, name: string, parseFloat: string -> Option<real>): (r: real)
    ensures !Ntd.Truthy(Ntd.Field(v, name)) && parseFloat("0") in {None, Some(0.0)} ==> r == 0.0
  {
    var x := Ntd.Field(v, name);
    var p := parseFloat(if Ntd.Truthy(x) then Ntd.ToString(x) else "0");
    if p.Some? then p.value else 0.0
  }

  /** The record read from one fetched value. */
  function RecordOf(v: Ntd.RawValue, f: NtdFields, parseFloat: string -> Option<real>): (r: NtdRecord)
    ensures forall i :: 0 <= i < |r.state| ==> !('a' <= r.state[i] <= 'z')
    ensures !Ntd.Truthy(Ntd.Field(v, f.ntdId)) ==> r.ntdId == ""
    ensures !Ntd.Truthy(Ntd.Field(v, f.uzaName)) ==> r.uzaName == ""
    ensures !Ntd.Truthy(Ntd.Field(v, f.reportYear)) ==> r.year == Some(0)
  {
    NtdRecord(Ntd.FieldText(v, f.ntdId), Ntd.FieldYear(v, f.reportYear), Ntd.FieldText(v, f.mode),
              Ntd.FieldText(v, f.typeOfService), Ntd.FieldText(v, f.agency),
              Ntd.Upper(Ntd.FieldText(v, f.state)), Ntd.FieldText(v, f.uzaName),
              Amount(v, f.vehicleRevenueMiles, parseFloat), Amount(v, f.totalOperatingExpenses, parseFloat))
  }

  /** `processNTDValues`: one record per value, in order. */
  method ProcessNtdValues(values: seq<Ntd.RawValue>, config: VisionEvalConfig, parseFloat: string -> Option<real>)
    returns (records: seq<NtdRecord>)
    ensures |records| == |values|
    ensures forall i :: 0 <= i < |values| ==> records[i] == RecordOf(values[i], ResolveFields(config), parseFloat)
  {
    var f := ResolveFields(config);
    records := [];
    for i := 0 to |values|
      invariant RecordsUpTo(records, values, f, parseFloat, i)
    {
      records := records + [RecordOf(values[i], f, parseFloat)];
    }
  }

  /** `records` are the records of the first `n` values. */
  predicate RecordsUpTo(records: seq<NtdRecord>, values: seq<Ntd.RawValue>, f: NtdFields,
                        parseFloat: string -> Option<real>, n: nat)
  {
    && |records| == n <= |values|
    && forall j :: 0 <= j < n ==> records[j] == RecordOf(values[j], f, parseFloat)
  }

  /** Missing amounts are 0 and a missing state is the empty string. */
  lemma RecordDefaults(v: Ntd.RawValue, f: NtdFields, parseFloat: string -> Option<real>)
    requires parseFloat("0") in {None, Some(0.0)}
    requires f.vehicleRevenueMiles !in v.values && f.totalOperatingExpenses !in v.values && f.state !in v.values
    ensures RecordOf(v, f, parseFloat).vehicleRevenueMiles == 0.0
    ensures RecordOf(v, f, parseFloat).totalOperatingExpenses == 0.0
    ensures RecordOf(v, f, parseFloat).state == ""
  {
  }

  // ---------------------------------------------------------------------
  // The records both tables group
  // ---------------------------------------------------------------------

  /** A record whose mode is mapped, with its VisionEval mode. */
  type Mapped = (NtdRecord, string)

  /** The records the tables keep (`if (!visionEvalMode) continue`), in order. */
  function MappedRecords(records: seq<NtdRecord>): (entries: seq<Mapped>)
    ensures |entries| <= |records|
  {
    if records == [] then []
    else
      var r := records[|records| - 1];
      var m := VisionEvalMode(r.mode);
      MappedRecords(records[..|records| - 1]) + if m.Some? then [(r, m.value)] else []
  }

  lemma MappedRecordsSnoc(records: seq<NtdRecord>, i: nat)
    requires i < |records|
    ensures var m := VisionEvalMode(records[i].mode);
      MappedRecords(records[..i + 1]) ==
        if m.Some? then MappedRecords(records[..i]) + [(records[i], m.value)] else MappedRecords(records[..i])
  {
    assert records[..i + 1][..i] == records[..i];
    assert MappedRecords(records[..i]) + [] == MappedRecords(records[..i]);
  }

  /** An entry is kept exactly for a record whose mode maps, paired with the mode it maps to. */
  lemma {:induction false} MappedRecordsMember(records: seq<NtdRecord>, e: Mapped)
    ensures e in MappedRecords(records) <==> e.0 in records && VisionEvalMode(e.0.mode) == Some(e.1)
  {
    if records != [] {
      var init := records[..|records| - 1];
      MappedRecordsMember(init, e);
      assert records == init + [records[|records| - 1]];
    }
  }

  // ---------------------------------------------------------------------
  // marea_transit_service
  // ---------------------------------------------------------------------

  /** A group of the marea table: urbanized area name and year. */
  type MareaKey = (string, Option<int>)

  function MareaKeyOf(r: NtdRecord): MareaKey {
    (r.uzaName, r.year)
  }

  /** The group of each kept record, in record order. */
  function MareaKeys(entries: seq<Mapped>): (keys: seq<MareaKey>)
    ensures |keys| == |entries| && forall i :: 0 <= i < |entries| ==> keys[i] == MareaKeyOf(entries[i].0)
  {
    seq(|entries|, i requires 0 <= i < |entries| => MareaKeyOf(entries[i].0))
  }

  /** The vehicle revenue miles of the kept records of a group with a given VisionEval mode. */
  function Miles(entries: seq<Mapped>, k: MareaKey, mode: string): real {
    if entries == [] then 0.0
    else
      var e := entries[|entries| - 1];
      Miles(entries[..|entries| - 1], k, mode) + if MareaKeyOf(e.0) == k && e.1 == mode then e.0.vehicleRevenueMiles else 0.0
  }

  /** One row: the group, and the miles of each VisionEval mode in `VisionEvalModes` order. */
  datatype MareaRow = MareaRow(geo: string, year: Option<int>, revMi: seq<real>)

  /** The rows in the order the groups were first seen, before the sort. */
  function MareaRows(records: seq<NtdRecord>): (rows: seq<MareaRow>)
    ensures |rows| == |Distinct(MareaKeys(MappedRecords(records)))|
  {
    var entries := MappedRecords(records);
    var order := Distinct(MareaKeys(entries));
    seq(|order|, i requires 0 <= i < |order| =>
      MareaRow(order[i].0, order[i].1, seq(8, j requires 0 <= j < 8 => Miles(entries, order[i], VisionEvalModes[j]))))
  }

  /** `modeMap.get(mode) || 0`. */
  function Get(m: map<string, real>, mode: string): real {
    if mode in m then m[mode] else 0.0
  }

  /** `a - b` on two years, NaN (which the sort treats as 0) when either is NaN. */
  function YearDiff(a: Option<int>, b: Option<int>): int {
    if a.Some? && b.Some? then a.value - b.value else 0
  }

  /** The comparator of the marea sort: by area name under `localeCompare`, then by year. */
  function MareaCmp(localeCompare: (string, string) -> int): (MareaRow, MareaRow) -> int {
    (a: MareaRow, b: MareaRow) =>
      var c := localeCompare(a.geo, b.geo);
      if c != 0 then c else YearDiff(a.year, b.year)
  }

  lemma MareaCmpAntisymmetric(localeCompare: (string, string) -> int)
    requires Antisymmetric(localeCompare)
    ensures Antisymmetric(MareaCmp(localeCompare))
  {
    forall a: MareaRow, b: MareaRow
      ensures MareaCmp(localeCompare)(a, b) > 0 <==> MareaCmp(localeCompare)(b, a) < 0
    {
      LocaleZero(localeCompare, a.geo, b.geo);
    }
  }

  /** An antisymmetric comparator finds two values equal in both orders or in neither. */
  lemma LocaleZero(localeCompare: (string, string) -> int, x: string, y: string)
    requires Antisymmetric(localeCompare)
    ensures localeCompare(x, y) == 0 <==> localeCompare(y, x) == 0
  {
    assert localeCompare(x, y) > 0 <==> localeCompare(y, x) < 0;
    assert localeCompare(y, x) > 0 <==> localeCompare(x, y) < 0;
  }

  /** The state of the grouping loop after some kept records: `uzaYearMap` and its insertion order. */
  ghost predicate MareaState(entries: seq<Mapped>, order: seq<MareaKey>, sums: map<MareaKey, map<string, real>>) {
    order == Distinct(MareaKeys(entries)) &&
    (forall k :: k in sums <==> k in order) &&
    (forall k, m :: k in sums ==> Get(sums[k], m) == Miles(entries, k, m))
  }

  /** `Distinct` of a list grown by one key. */
  lemma DistinctAppend<K(!new)>(keys: seq<K>, k: K)
    ensures Distinct(keys + [k]) == if k in Distinct(keys) then Distinct(keys) else Distinct(keys) + [k]
  {
    DistinctSnoc(keys + [k], |keys|);
    assert (keys + [k])[..|keys| + 1] == keys + [k];
    assert (keys + [k])[..|keys|] == keys;
  }

  /** A group no kept record belongs to has no miles. */
  lemma {:induction false} MilesOfAbsentKey(entries: seq<Mapped>, k: MareaKey, mode: string)
    requires k !in MareaKeys(entries)
    ensures Miles(entries, k, mode) == 0.0
  {
    if entries != [] {
      MilesOfAbsentKey(entries[..|entries| - 1], k, mode);
    }
  }

  /** One kept record adds its miles to its group and mode; its group is appended when new. */
  lemma MareaStep(entries: seq<Mapped>, record: NtdRecord, mode: string, order0: seq<MareaKey>,
                   sums0: map<MareaKey, map<string, real>>, order: seq<MareaKey>, sums: map<MareaKey, map<string, real>>)
    requires MareaState(entries, order0, sums0)
    requires var key := MareaKeyOf(record);
      var modeMap := if key in sums0 then sums0[key] else map[];
      && order == (if key in sums0 then order0 else order0 + [key])
      && sums == sums0[key := modeMap[mode := Get(modeMap, mode) + record.vehicleRevenueMiles]]
    ensures MareaState(entries + [(record, mode)], order, sums)
  {
    var key := MareaKeyOf(record);
    MareaOrderStep(entries, (record, mode), order0);
    KeysStep(order0, sums0, key, sums[key], order, sums);
    MareaSumsStep(entries, record, mode, order0, sums0, sums);
  }

  /** Writing a key into the map and appending it to the order when new keeps the two in step. */
  lemma KeysStep<K, V>(order0: seq<K>, m0: map<K, V>, key: K, v: V, order: seq<K>, m: map<K, V>)
    requires forall k :: k in m0 <==> k in order0
    requires order == (if key in m0 then order0 else order0 + [key]) && m == m0[key := v]
    ensures forall k :: k in m <==> k in order
  {
  }

  lemma MareaOrderStep(entries: seq<Mapped>, e: Mapped, order0: seq<MareaKey>)
    requires order0 == Distinct(MareaKeys(entries))
    ensures Distinct(MareaKeys(entries + [e])) == if MareaKeyOf(e.0) in order0 then order0 else order0 + [MareaKeyOf(e.0)]
  {
    assert MareaKeys(entries + [e]) == MareaKeys(entries) + [MareaKeyOf(e.0)];
    DistinctAppend(MareaKeys(entries), MareaKeyOf(e.0));
  }

  /** One more kept record adds its miles to its own group and mode only. */
  lemma MilesSnoc(entries: seq<Mapped>, e: Mapped, k: MareaKey, mode: string)
    ensures Miles(entries + [e], k, mode) ==
      Miles(entries, k, mode) + if MareaKeyOf(e.0) == k && e.1 == mode then e.0.vehicleRevenueMiles else 0.0
  {
    assert (entries + [e])[..|entries|] == entries;
  }

  lemma MareaSumsStep(entries: seq<Mapped>, record: NtdRecord, mode: string, order0: seq<MareaKey>,
                      sums0: map<MareaKey, map<string, real>>, sums: map<MareaKey, map<string, real>>)
    requires MareaState(entries, order0, sums0)
    requires var key := MareaKeyOf(record);
      var modeMap := if key in sums0 then sums0[key] else map[];
      sums == sums0[key := modeMap[mode := Get(modeMap, mode) + record.vehicleRevenueMiles]]
    ensures forall k, m :: k in sums ==> Get(sums[k], m) == Miles(entries + [(record, mode)], k, m)
  {
    var key := MareaKeyOf(record);
    forall k, m | k in sums
      ensures Get(sums[k], m) == Miles(entries + [(record, mode)], k, m)
    {
      MilesSnoc(entries, (record, mode), k, m);
      if k == key && key !in sums0 {
        assert key !in MareaKeys(entries);
        MilesOfAbsentKey(entries, key, m);
      }
    }
  }


  /** One turn of the grouping loop. */
  method AddMarea(records: seq<NtdRecord>, i: nat, order0: seq<MareaKey>, sums0: map<MareaKey, map<string, real>>)
    returns (order: seq<MareaKey>, sums: map<MareaKey, map<string, real>>)
    requires i < |records| && MareaState(MappedRecords(records[..i]), order0, sums0)
    ensures MareaState(MappedRecords(records[..i + 1]), order, sums)
  {
    ghost var entries := MappedRecords(records[..i]);
    MappedRecordsSnoc(records, i);
    var record := records[i];
    order, sums := order0, sums0;
    var visionEvalMode := VisionEvalMode(record.mode);
    if visionEvalMode.None? {
      return;
    }
    var key := MareaKeyOf(record);
    if key !in sums {
      order := order + [key];
    }
    var modeMap := if key in sums then sums[key] else map[];
    var currentValue := Get(modeMap, visionEvalMode.value);
    sums := sums[key := modeMap[visionEvalMode.value := currentValue + record.vehicleRevenueMiles]];
    MareaStep(entries, record, visionEvalMode.value, order0, sums0, order, sums);
  }

  /**
   * `generateMareaTransitService`: one row per (area, year) group of the
   * records with a mapped mode, the miles of each mode summed, sorted by
   * area and then year.
   */
  method GenerateMareaTransitService(records: seq<NtdRecord>, localeCompare: (string, string) -> int)
    returns (rows: seq<MareaRow>)
    ensures rows == SortBy(MareaRows(records), MareaCmp(localeCompare))
  {
    var order: seq<MareaKey> := [];
    var sums: map<MareaKey, map<string, real>> := map[];
    for i := 0 to |records|
      invariant MareaState(MappedRecords(records[..i]), order, sums)
    {
      order, sums := AddMarea(records, i, order, sums);
    }
    assert records[..|records|] == records;
    rows := MareaRowsOf(records, order, sums);
    rows := SortBy(rows, MareaCmp(localeCompare));
  }

  /** The conversion of `uzaYearMap` to rows, in insertion order. */
  method MareaRowsOf(records: seq<NtdRecord>, order: seq<MareaKey>, sums: map<MareaKey, map<string, real>>)
    returns (rows: seq<MareaRow>)
    requires MareaState(MappedRecords(records), order, sums)
    ensures rows == MareaRows(records)
  {
    rows := [];
    for i := 0 to |order|
      invariant rows == MareaRows(records)[..i]
    {
      var modeMap := sums[order[i]];
      var row := MareaRow(order[i].0, order[i].1, seq(8, j requires 0 <= j < 8 => Get(modeMap, VisionEvalModes[j])));
      assert row == MareaRows(records)[i];
      rows := rows + [row];
    }
  }

  function RowKeys(rows: seq<MareaRow>): (r: seq<MareaKey>)
    ensures |r| == |rows| && forall i :: 0 <= i < |rows| ==> r[i] == (rows[i].geo, rows[i].year)
  {
    seq(|rows|, i requires 0 <= i < |rows| => (rows[i].geo, rows[i].year))
  }

  /** A group is present iff some record of it has a mapped mode. */
  lemma MareaKeysMember(records: seq<NtdRecord>, k: MareaKey)
    ensures k in MareaKeys(MappedRecords(records)) <==>
      exists r :: r in records && VisionEvalMode(r.mode).Some? && MareaKeyOf(r) == k
  {
    var entries := MappedRecords(records);
    if k in MareaKeys(entries) {
      var i :| 0 <= i < |entries| && MareaKeys(entries)[i] == k;
      MappedRecordsMember(records, entries[i]);
    }
    if r :| r in records && VisionEvalMode(r.mode).Some? && MareaKeyOf(r) == k {
      MappedRecordsMember(records, (r, VisionEvalMode(r.mode).value));
      var i :| 0 <= i < |entries| && entries[i] == (r, VisionEvalMode(r.mode).value);
      assert MareaKeys(entries)[i] == k;
    }
  }

  /** The marea table is sorted by area then year and holds each row of the grouping exactly once. */
  lemma MareaTableSorted(records: seq<NtdRecord>, localeCompare: (string, string) -> int)
    requires Antisymmetric(localeCompare)
    ensures SortedBy(SortBy(MareaRows(records), MareaCmp(localeCompare)), MareaCmp(localeCompare))
    ensures multiset(SortBy(MareaRows(records), MareaCmp(localeCompare))) == multiset(MareaRows(records))
  {
    MareaCmpAntisymmetric(localeCompare);
    SortBySorted(MareaRows(records), MareaCmp(localeCompare));
  }

  /**
   * The grouping has one row per distinct (area, year) of the records with
   * a mapped mode, each mode column holding that group's miles in that mode.
   */
  lemma MareaTableRows(records: seq<NtdRecord>)
    ensures NoDuplicates(RowKeys(MareaRows(records)))
    ensures forall k :: k in RowKeys(MareaRows(records)) <==>
      exists r :: r in records && VisionEvalMode(r.mode).Some? && MareaKeyOf(r) == k
    ensures forall row, j :: row in MareaRows(records) && 0 <= j < 8 ==>
      |row.revMi| == 8 && row.revMi[j] == Miles(MappedRecords(records), (row.geo, row.year), VisionEvalModes[j])
  {
    var rows := MareaRows(records);
    assert RowKeys(rows) == Distinct(MareaKeys(MappedRecords(records)));
    forall k
      ensures k in RowKeys(rows) <==> exists r :: r in records && VisionEvalMode(r.mode).Some? && MareaKeyOf(r) == k
    {
      MareaKeysMember(records, k);
    }
  }

  /** A mode no record of a group maps to has 0 miles in that group's row. */
  lemma AbsentModeIsZero(records: seq<NtdRecord>, k: MareaKey, mode: string)
    requires forall r :: r in records && MareaKeyOf(r) == k ==> VisionEvalMode(r.mode) != Some(mode)
    ensures Miles(MappedRecords(records), k, mode) == 0.0
  {
    var entries := MappedRecords(records);
    forall e | e in entries
      ensures !(MareaKeyOf(e.0) == k && e.1 == mode)
    {
      MappedRecordsMember(records, e);
    }
    MilesOfNoEntry(entries, k, mode);
  }

  lemma {:induction false} MilesOfNoEntry(entries: seq<Mapped>, k: MareaKey, mode: string)
    requires forall e :: e in entries ==> !(MareaKeyOf(e.0) == k && e.1 == mode)
    ensures Miles(entries, k, mode) == 0.0
  {
    if entries != [] {
      MilesOfNoEntry(entries[..|entries| - 1], k, mode);
    }
  }

  /** Records whose mode is not mapped change no row. */
  lemma UnmappedIgnored(records: seq<NtdRecord>, r: NtdRecord)
    requires VisionEvalMode(r.mode).None?
    ensures MareaRows(records + [r]) == MareaRows(records)
    ensures CostRows(records + [r]) == CostRows(records)
  {
    MappedRecordsSnoc(records + [r], |records|);
    assert (records + [r])[..|records| + 1] == records + [r];
    assert (records + [r])[..|records|] == records;
    assert MappedRecords(records + [r]) == MappedRecords(records);
  }

  // ---------------------------------------------------------------------
  // The group key as written: a string split back on '|'
  // ---------------------------------------------------------------------

  /** `${record.uzaName}|${record.year}` for a numeric year. */
  function MareaKeyText(uzaName: string, year: nat): string {
    uzaName + "|" + JsNum.NatToString(year)
  }

  /** `const [uzaName, yearStr] = key.split('|')`, then `parseInt(yearStr, 10)`. */
  function ReadMareaKey(key: string): (string, Option<int>) {
    var parts := CoreDatetime.Split(key, '|');
    (parts[0], if |parts| > 1 then JsNum.ParseInt10(parts[1]) else None)
  }

  /** An area name without '|' is read back exactly. */
  lemma ReadMareaKeyPlain(uzaName: string, year: nat)
    requires '|' !in uzaName
    ensures ReadMareaKey(MareaKeyText(uzaName, year)) == (uzaName, Some(year as int))
  {
    var y := JsNum.NatToString(year);
    assert '|' !in y by {
      assert forall i :: 0 <= i < |y| ==> JsNum.IsDigit(y[i]);
    }
    CoreDatetime.SplitAppendPiece(uzaName, '|', y);
    CoreDatetime.SplitOfPiece(uzaName, '|');
    JsNum.ParseIntOfNatToString(year);
  }

  /**
   * An area name holding '|' is cut at its first bar: the rest of the name
   * takes the place of the year, which is lost.
   */
  lemma ReadMareaKeyOfBarName(a: string, b: string, year: nat)
    requires '|' !in a && '|' !in b
    ensures ReadMareaKey(MareaKeyText(a + "|" + b, year)) == (a, JsNum.ParseInt10(b))
  {
    var y := JsNum.NatToString(year);
    assert '|' !in y by {
      assert forall i :: 0 <= i < |y| ==> JsNum.IsDigit(y[i]);
    }
    CoreDatetime.SplitAppendPiece(a + "|" + b, '|', y);
    CoreDatetime.SplitAppendPiece(a, '|', b);
    CoreDatetime.SplitOfPiece(a, '|');
  }

  /** "A|B" of 2024 reads back as the area "A" with no year. */
  lemma ReadMareaKeyWithBar()
    ensures ReadMareaKey(MareaKeyText("A|B", 2024)) == ("A", None)
  {
    assert "A|B" == "A" + "|" + "B";
    ReadMareaKeyOfBarName("A", "B", 2024);
    assert JsNum.ParseInt10("B") == None by {
      assert JsNum.TrimStart("B") == "B";
    }
  }

  // ---------------------------------------------------------------------
  // cost_per_revenue_mile
  // ---------------------------------------------------------------------

  /** A group of the cost table: year and VisionEval mode. */
  type CostKey = (Option<int>, string)

  function CostKeyOf(e: Mapped): CostKey {
    (e.0.year, e.1)
  }

  function CostKeys(entries: seq<Mapped>): (keys: seq<CostKey>)
    ensures |keys| == |entries| && forall i :: 0 <= i < |entries| ==> keys[i] == CostKeyOf(entries[i])
  {
    seq(|entries|, i requires 0 <= i < |entries| => CostKeyOf(entries[i]))
  }

  /** The summed expenses and miles of the kept records of a cost group. */
  function CostTotals(entries: seq<Mapped>, k: CostKey): (real, real) {
    if entries == [] then (0.0, 0.0)
    else
      var e := entries[|entries| - 1];
      var t := CostTotals(entries[..|entries| - 1], k);
      if CostKeyOf(e) == k then (t.0 + e.0.totalOperatingExpenses, t.1 + e.0.vehicleRevenueMiles) else t
  }

  /** `totals.miles > 0 ? totals.expenses / totals.miles : 0`. */
  function CostPerMile(totals: (real, real)): (r: real)
    ensures totals.1 <= 0.0 ==> r == 0.0
    ensures totals.1 > 0.0 ==> r * totals.1 == totals.0
  {
    if totals.1 > 0.0 then totals.0 / totals.1 else 0.0
  }

  datatype CostRow = CostRow(yearOfDollars: Option<int>, mode: string, costPerRevenueMile: real)

  function CostRows(records: seq<NtdRecord>): (rows: seq<CostRow>)
    ensures |rows| == |Distinct(CostKeys(MappedRecords(records)))|
  {
    var entries := MappedRecords(records);
    var order := Distinct(CostKeys(entries));
    seq(|order|, i requires 0 <= i < |order| => CostRow(order[i].0, order[i].1, CostPerMile(CostTotals(entries, order[i]))))
  }

  /**
   * The comparator of the cost sort: by year, then by mode under
   * `localeCompare`. A NaN year makes the difference NaN, which is not 0, so
   * the comparator returns it and the sort reads it as 0: the modes are then
   * never compared.
   */
  function CostCmp(localeCompare: (string, string) -> int): (CostRow, CostRow) -> int {
    (a: CostRow, b: CostRow) =>
      if a.yearOfDollars.None? || b.yearOfDollars.None? then 0
      else
        var c := a.yearOfDollars.value - b.yearOfDollars.value;
        if c != 0 then c else localeCompare(a.mode, b.mode)
  }

  /** Rows whose years are all NaN keep their grouping order through the sort. */
  lemma CostNaNYearsKeepOrder(rows: seq<CostRow>, localeCompare: (string, string) -> int)
    requires forall i :: 0 <= i < |rows| ==> rows[i].yearOfDollars.None?
    ensures SortBy(rows, CostCmp(localeCompare)) == rows
  {
    assert SortedBy(rows, CostCmp(localeCompare));
    SortBySortedUnchanged(rows, CostCmp(localeCompare));
  }

  lemma CostCmpAntisymmetric(localeCompare: (string, string) -> int)
    requires Antisymmetric(localeCompare)
    ensures Antisymmetric(CostCmp(localeCompare))
  {
    forall a: CostRow, b: CostRow
      ensures CostCmp(localeCompare)(a, b) > 0 <==> CostCmp(localeCompare)(b, a) < 0
    {
      LocaleZero(localeCompare, a.mode, b.mode);
    }
  }

  /** The state of the grouping loop after some kept records: `yearModeMap` and its insertion order. */
  ghost predicate CostState(entries: seq<Mapped>, order: seq<CostKey>, totals: map<CostKey, (real, real)>) {
    order == Distinct(CostKeys(entries)) &&
    (forall k :: k in totals <==> k in order) &&
    (forall k :: k in totals ==> totals[k] == CostTotals(entries, k))
  }

  /** A group no kept record belongs to has no expenses and no miles. */
  lemma {:induction false} CostTotalsOfAbsentKey(entries: seq<Mapped>, k: CostKey)
    requires k !in CostKeys(entries)
    ensures CostTotals(entries, k) == (0.0, 0.0)
  {
    if entries != [] {
      CostTotalsOfAbsentKey(entries[..|entries| - 1], k);
    }
  }

  /** One kept record adds its expenses and miles to its group, which is appended when new. */
  lemma CostStep(entries: seq<Mapped>, e: Mapped, order0: seq<CostKey>, totals0: map<CostKey, (real, real)>,
                  order: seq<CostKey>, totals: map<CostKey, (real, real)>)
    requires CostState(entries, order0, totals0)
    requires var key := CostKeyOf(e);
      var t := if key in totals0 then totals0[key] else (0.0, 0.0);
      && order == (if key in totals0 then order0 else order0 + [key])
      && totals == totals0[key := (t.0 + e.0.totalOperatingExpenses, t.1 + e.0.vehicleRevenueMiles)]
    ensures CostState(entries + [e], order, totals)
  {
    var key := CostKeyOf(e);
    CostOrderStep(entries, e, order0);
    KeysStep(order0, totals0, key, totals[key], order, totals);
    CostTotalsStep(entries, e, totals0, totals);
  }

  lemma CostOrderStep(entries: seq<Mapped>, e: Mapped, order0: seq<CostKey>)
    requires order0 == Distinct(CostKeys(entries))
    ensures Distinct(CostKeys(entries + [e])) == if CostKeyOf(e) in order0 then order0 else order0 + [CostKeyOf(e)]
  {
    assert CostKeys(entries + [e]) == CostKeys(entries) + [CostKeyOf(e)];
    DistinctAppend(CostKeys(entries), CostKeyOf(e));
  }

  /** One more kept record adds its expenses and miles to its own group's totals only. */
  lemma CostTotalsSnoc(entries: seq<Mapped>, e: Mapped, k: CostKey)
    ensures var t := CostTotals(entries, k);
      CostTotals(entries + [e], k) ==
        if CostKeyOf(e) == k then (t.0 + e.0.totalOperatingExpenses, t.1 + e.0.vehicleRevenueMiles) else t
  {
    assert (entries + [e])[..|entries|] == entries;
  }

  lemma CostTotalsStep(entries: seq<Mapped>, e: Mapped, totals0: map<CostKey, (real, real)>, totals: map<CostKey, (real, real)>)
    requires forall k :: k in totals0 <==> k in CostKeys(entries)
    requires forall k :: k in totals0 ==> totals0[k] == CostTotals(entries, k)
    requires var key := CostKeyOf(e);
      var t := if key in totals0 then totals0[key] else (0.0, 0.0);
      totals == totals0[key := (t.0 + e.0.totalOperatingExpenses, t.1 + e.0.vehicleRevenueMiles)]
    ensures forall k :: k in totals ==> totals[k] == CostTotals(entries + [e], k)
  {
    var key := CostKeyOf(e);
    if key !in totals0 {
      CostTotalsOfAbsentKey(entries, key);
    }
    forall k | k in totals
      ensures totals[k] == CostTotals(entries + [e], k)
    {
      CostTotalsSnoc(entries, e, k);
    }
  }

  /** One turn of the grouping loop. */
  method AddCost(records: seq<NtdRecord>, i: nat, order0: seq<CostKey>, totals0: map<CostKey, (real, real)>)
    returns (order: seq<CostKey>, totals: map<CostKey, (real, real)>)
    requires i < |records| && CostState(MappedRecords(records[..i]), order0, totals0)
    ensures CostState(MappedRecords(records[..i + 1]), order, totals)
  {
    ghost var entries := MappedRecords(records[..i]);
    MappedRecordsSnoc(records, i);
    var record := records[i];
    order, totals := order0, totals0;
    var visionEvalMode := VisionEvalMode(record.mode);
    if visionEvalMode.None? {
      return;
    }
    var key := (record.year, visionEvalMode.value);
    if key !in totals {
      order := order + [key];
    }
    var t := if key in totals then totals[key] else (0.0, 0.0);
    totals := totals[key := (t.0 + record.totalOperatingExpenses, t.1 + record.vehicleRevenueMiles)];
    ghost var e := (record, visionEvalMode.value);
    assert CostKeyOf(e) == key;
    CostStep(entries, e, order0, totals0, order, totals);
    assert MappedRecords(records[..i + 1]) == entries + [e];
  }

  /**
   * `generateCostPerRevenueMile`: one row per (year, mode) group of the
   * records with a mapped mode, expenses over miles (0 without miles),
   * sorted by year and then mode.
   */
  method GenerateCostPerRevenueMile(records: seq<NtdRecord>, localeCompare: (string, string) -> int)
    returns (rows: seq<CostRow>)
    ensures rows == SortBy(CostRows(records), CostCmp(localeCompare))
  {
    var order: seq<CostKey> := [];
    var totals: map<CostKey, (real, real)> := map[];
    for i := 0 to |records|
      invariant CostState(MappedRecords(records[..i]), order, totals)
    {
      order, totals := AddCost(records, i, order, totals);
    }
    assert records[..|records|] == records;
    rows := CostRowsOf(records, order, totals);
    rows := SortBy(rows, CostCmp(localeCompare));
  }

  /** The conversion of `yearModeMap` to rows, in insertion order. */
  method CostRowsOf(records: seq<NtdRecord>, order: seq<CostKey>, totals: map<CostKey, (real, real)>)
    returns (rows: seq<CostRow>)
    requires CostState(MappedRecords(records), order, totals)
    ensures rows == CostRows(records)
  {
    rows := [];
    for i := 0 to |order|
      invariant rows == CostRows(records)[..i]
    {
      var t := totals[order[i]];
      var costPerRevenueMile := if t.1 > 0.0 then t.0 / t.1 else 0.0;
      var row := CostRow(order[i].0, order[i].1, costPerRevenueMile);
      assert row == CostRows(records)[i];
      rows := rows + [row];
    }
  }

  function CostRowKeys(rows: seq<CostRow>): (r: seq<CostKey>)
    ensures |r| == |rows| && forall i :: 0 <= i < |rows| ==> r[i] == (rows[i].yearOfDollars, rows[i].mode)
  {
    seq(|rows|, i requires 0 <= i < |rows| => (rows[i].yearOfDollars, rows[i].mode))
  }

  /** A (year, mode) group is present iff some record of that year has an NTD mode mapping to it. */
  lemma CostKeysMember(records: seq<NtdRecord>, k: CostKey)
    ensures k in CostKeys(MappedRecords(records)) <==>
      exists r :: r in records && VisionEvalMode(r.mode) == Some(k.1) && r.year == k.0
  {
    var entries := MappedRecords(records);
    if k in CostKeys(entries) {
      var i :| 0 <= i < |entries| && CostKeys(entries)[i] == k;
      MappedRecordsMember(records, entries[i]);
    }
    if r :| r in records && VisionEvalMode(r.mode) == Some(k.1) && r.year == k.0 {
      MappedRecordsMember(records, (r, k.1));
      var i :| 0 <= i < |entries| && entries[i] == (r, k.1);
      assert CostKeys(entries)[i] == k;
    }
  }

  /** The cost table is sorted by year then mode and holds each row of the grouping exactly once. */
  lemma CostTableSorted(records: seq<NtdRecord>, localeCompare: (string, string) -> int)
    requires Antisymmetric(localeCompare)
    ensures SortedBy(SortBy(CostRows(records), CostCmp(localeCompare)), CostCmp(localeCompare))
    ensures multiset(SortBy(CostRows(records), CostCmp(localeCompare))) == multiset(CostRows(records))
  {
    CostCmpAntisymmetric(localeCompare);
    SortBySorted(CostRows(records), CostCmp(localeCompare));
  }

  /**
   * The grouping has one row per distinct (year, VisionEval mode) of the
   * records, holding that group's expenses over its miles (0 without miles).
   */
  lemma CostTableRows(records: seq<NtdRecord>)
    ensures NoDuplicates(CostRowKeys(CostRows(records)))
    ensures forall k :: k in CostRowKeys(CostRows(records)) <==>
      exists r :: r in records && VisionEvalMode(r.mode) == Some(k.1) && r.year == k.0
    ensures forall row :: row in CostRows(records) ==>
      row.costPerRevenueMile == CostPerMile(CostTotals(MappedRecords(records), (row.yearOfDollars, row.mode)))
  {
    var rows := CostRows(records);
    assert CostRowKeys(rows) == Distinct(CostKeys(MappedRecords(records)));
    forall k
      ensures k in CostRowKeys(rows) <==> exists r :: r in records && VisionEvalMode(r.mode) == Some(k.1) && r.year == k.0
    {
      CostKeysMember(records, k);
    }
  }

  // ---------------------------------------------------------------------
  // The report
  // ---------------------------------------------------------------------

  datatype Summary = Summary(state: string, year: int, totalAgencies: nat, totalUzas: nat, totalRecords: nat)

  datatype Report = Report(config: VisionEvalConfig, summary: Summary, mareaTransitService: seq<MareaRow>,
                           costPerRevenueMile: seq<CostRow>, rawRecords: seq<NtdRecord>)

  /** `records.map(r => r.ntdId)`. */
  function NtdIdColumn(records: seq<NtdRecord>): (c: seq<string>)
    ensures |c| == |records| && forall i :: 0 <= i < |records| ==> c[i] == records[i].ntdId
  {
    seq(|records|, i requires 0 <= i < |records| => records[i].ntdId)
  }

  /** `records.map(r => r.uzaName)`. */
  function UzaNameColumn(records: seq<NtdRecord>): (c: seq<string>)
    ensures |c| == |records| && forall i :: 0 <= i < |records| ==> c[i] == records[i].uzaName
  {
    seq(|records|, i requires 0 <= i < |records| => records[i].uzaName)
  }

  /** `new Set(column)`. */
  function Elements(column: seq<string>): set<string> {
    set x | x in column
  }

  /** The summary: the state and year asked for and the distinct agencies, areas and records. */
  function Summarize(records: seq<NtdRecord>, config: VisionEvalConfig): (s: Summary)
    ensures s.totalAgencies <= s.totalRecords && s.totalUzas <= s.totalRecords
    ensures s.totalRecords == 0 <==> s.totalAgencies == 0
    ensures s.totalRecords == 0 <==> s.totalUzas == 0
  {
    ElementsBounds(NtdIdColumn(records));
    ElementsBounds(UzaNameColumn(records));
    Summary(config.state, config.year, |Elements(NtdIdColumn(records))|, |Elements(UzaNameColumn(records))|, |records|)
  }

  /** A list has at most as many distinct elements as entries, and at least one when it is not empty. */
  lemma {:induction false} ElementsBounds(column: seq<string>)
    ensures |Elements(column)| <= |column|
    ensures |column| > 0 ==> |Elements(column)| > 0
  {
    if column != [] {
      var init := column[..|column| - 1];
      ElementsBounds(init);
      assert Elements(column) == Elements(init) + {column[|column| - 1]} by {
        assert column == init + [column[|column| - 1]];
      }
    }
  }

  /** The summary counts every record, whatever its mode: mapped or not. */
  lemma SummaryIgnoresModes(records: seq<NtdRecord>, config: VisionEvalConfig, r: NtdRecord, mode: string)
    ensures Summarize(records + [r], config) == Summarize(records + [r.(mode := mode)], config)
  {
    assert NtdIdColumn(records + [r]) == NtdIdColumn(records + [r.(mode := mode)]);
    assert UzaNameColumn(records + [r]) == UzaNameColumn(records + [r.(mode := mode)]);
  }

  /** `generateVisionEvalReport`: both tables, the summary and the records themselves. */
  method GenerateVisionEvalReport(records: seq<NtdRecord>, config: VisionEvalConfig, localeCompare: (string, string) -> int)
    returns (report: Report)
    ensures report.mareaTransitService == SortBy(MareaRows(records), MareaCmp(localeCompare))
    ensures report.costPerRevenueMile == SortBy(CostRows(records), CostCmp(localeCompare))
    ensures report.summary == Summarize(records, config)
    ensures report.config == config && report.rawRecords == records
  {
    var mareaTransitService := GenerateMareaTransitService(records, localeCompare);
    var costPerRevenueMile := GenerateCostPerRevenueMile(records, localeCompare);
    var summary := Summarize(records, config);
    report := Report(config, summary, mareaTransitService, costPerRevenueMile, records);
  }
}
