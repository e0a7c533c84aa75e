/** The column table read from the analysis model, as values: one record per
    column, the story filter, and the table-wide updates that calibration and
    load transfer make, stated as functions of the table before the update. */
module ColumnData {
  import opened LoadKeys

  datatype Option<T> = None | Some(value: T)

  datatype Point = Point(x: real, y: real)

  /** One row of the table: `MyNames`, `StoryName`, `Point1X`/`Point1Y`, the
      mapped `RAM_X`/`RAM_Y` (absent until calibration) and the load columns.
      A load value `None` is a missing entry (NaN). */
  datatype Column = Column(
    name: string,
    story: string,
    point1: Point,
    ram: Option<Point>,
    loads: map<string, Option<real>>)

  /** Peak axial force per column for a load case, given the names asked for. */
  type PeakQuery = (string, seq<string>) -> map<string, real>

  /** The value in a load column, missing when the row has no such entry. */
  function LoadOf(c: Column, key: string): Option<real>
  {
    if key in c.loads then c.loads[key] else None
  }

  /** `Series.map(dict)`: the reported force for a name, missing when not reported. */
  function Lookup(reported: map<string, real>, name: string): Option<real>
  {
    if name in reported then Some(reported[name]) else None
  }

  /** A missing entry counts as zero in a row-wise sum. */
  function OrZero(v: Option<real>): real
  {
    if v.Some? then v.value else 0.0
  }

  // ---------------------------------------------------------------- story filter

  /** The rows whose story is `level`, in table order. */
  function StoryRows(rows: seq<Column>, level: string): seq<Column>
    decreases |rows|
  {
    if rows == [] then []
    else (if rows[0].story == level then [rows[0]] else []) + StoryRows(rows[1..], level)
  }

  /** The names of the rows on `level`: the list the peak forces are requested for. */
  function StoryNames(rows: seq<Column>, level: string): seq<string>
  {
    var s := StoryRows(rows, level);
    seq(|s|, k requires 0 <= k < |s| => s[k].name)
  }

  /** Independent count of the rows on `level`. */
  function StoryCount(rows: seq<Column>, level: string): nat
    decreases |rows|
  {
    if rows == [] then 0
    else (if rows[0].story == level then 1 else 0) + StoryCount(rows[1..], level)
  }

  /** Every row has its mapped coordinates. */
  predicate Calibrated(rows: seq<Column>)
  {
    forall i :: 0 <= i < |rows| ==> rows[i].ram.Some?
  }

  /** Membership: the filter keeps exactly the rows on `level`. */
  lemma {:induction false} StoryRowsMembers(rows: seq<Column>, level: string)
    ensures forall c :: c in StoryRows(rows, level) <==> c in rows && c.story == level
    decreases |rows|
  {
    if rows != [] {
      StoryRowsMembers(rows[1..], level);
      assert rows == [rows[0]] + rows[1..];
    }
  }

  /** Order: filtering a concatenation is concatenating the filtered parts. */
  lemma {:induction false} StoryRowsAppend(a: seq<Column>, b: seq<Column>, level: string)
    ensures StoryRows(a + b, level) == StoryRows(a, level) + StoryRows(b, level)
    decreases |a|
  {
    if a != [] {
      assert (a + b)[1..] == a[1..] + b;
      StoryRowsAppend(a[1..], b, level);
    } else {
      assert a + b == b;
    }
  }

  /** The filter's length is the number of rows on the story. */
  lemma {:induction false} StoryRowsCount(rows: seq<Column>, level: string)
    ensures |StoryRows(rows, level)| == StoryCount(rows, level)
    decreases |rows|
  {
    if rows != [] {
      StoryRowsCount(rows[1..], level);
    }
  }

  /** A name requested for `level` belongs to some row on `level`. */
  lemma StoryNamesFrom(rows: seq<Column>, level: string, n: string)
    requires n in StoryNames(rows, level)
    ensures exists j :: 0 <= j < |rows| && rows[j].name == n && rows[j].story == level
  {
    var s := StoryRows(rows, level);
    var k :| 0 <= k < |s| && StoryNames(rows, level)[k] == n;
    StoryRowsMembers(rows, level);
    assert s[k] in s;
  }

  /** A row-wise update that keeps each row's story commutes with the filter. */
  lemma {:induction false} StoryRowsOfMapped(a: seq<Column>, b: seq<Column>, level: string, f: Column -> Column)
    requires |a| == |b|
    requires forall i :: 0 <= i < |a| ==> b[i] == f(a[i])
    requires forall c :: f(c).story == c.story
    ensures |StoryRows(b, level)| == |StoryRows(a, level)|
    ensures forall k :: 0 <= k < |StoryRows(a, level)| ==> StoryRows(b, level)[k] == f(StoryRows(a, level)[k])
    decreases |a|
  {
    if a != [] {
      StoryRowsOfMapped(a[1..], b[1..], level, f);
      assert b[0] == f(a[0]);
    }
  }

  /** A row-wise update that keeps names and stories asks for the same names. */
  lemma StoryNamesOfMapped(a: seq<Column>, b: seq<Column>, level: string, f: Column -> Column)
    requires |a| == |b|
    requires forall i :: 0 <= i < |a| ==> b[i] == f(a[i])
    requires forall c :: f(c).story == c.story && f(c).name == c.name
    ensures StoryNames(b, level) == StoryNames(a, level)
  {
    StoryRowsOfMapped(a, b, level, f);
  }

  // ----------------------------------------------------------------- calibration

  /** A row after calibration: its mapped point is the transform of its own source point. */
  function CalibrateRow(c: Column, transform: Point -> Point): Column
  {
    c.(ram := Some(transform(c.point1)))
  }

  /** The table after the row-wise apply of the transform. */
  function CalibrateRows(rows: seq<Column>, transform: Point -> Point): seq<Column>
  {
    seq(|rows|, i requires 0 <= i < |rows| => CalibrateRow(rows[i], transform))
  }

  /** Calibration overwrites: a second calibration discards the first one. */
  lemma CalibrateOverwrites(rows: seq<Column>, first: Point -> Point, second: Point -> Point)
    ensures CalibrateRows(CalibrateRows(rows, first), second) == CalibrateRows(rows, second)
  {
  }

  /** After calibration every row has coordinates and nothing else changed. */
  lemma CalibrateRowsShape(rows: seq<Column>, transform: Point -> Point)
    ensures |CalibrateRows(rows, transform)| == |rows|
    ensures Calibrated(CalibrateRows(rows, transform))
    ensures forall i :: 0 <= i < |rows| ==>
      var c := CalibrateRows(rows, transform)[i];
      c.ram == Some(transform(rows[i].point1)) &&
      c.name == rows[i].name && c.story == rows[i].story &&
      c.point1 == rows[i].point1 && c.loads == rows[i].loads
  {
  }

  // ------------------------------------------------------------ load columns

  /** `df[key] = df["MyNames"].map(reported)`: every row gets the value reported
      for its name, or a missing entry. */
  function WithCaseColumn(rows: seq<Column>, key: string, reported: map<string, real>): seq<Column>
  {
    seq(|rows|, i requires 0 <= i < |rows| =>
      rows[i].(loads := rows[i].loads[key := Lookup(reported, rows[i].name)]))
  }

  /** `df[keys].sum(axis=1)` for one row: missing entries count as zero. */
  function RowSum(c: Column, keys: seq<string>): real
    decreases |keys|
  {
    if keys == [] then 0.0
    else RowSum(c, keys[..|keys| - 1]) + OrZero(LoadOf(c, keys[|keys| - 1]))
  }

  /** `df[key] = df[keys].sum(axis=1)`. */
  function WithSumColumn(rows: seq<Column>, key: string, keys: seq<string>): seq<Column>
  {
    seq(|rows|, i requires 0 <= i < |rows| =>
      rows[i].(loads := rows[i].loads[key := Some(RowSum(rows[i], keys))]))
  }

  /** The per-case loop: case after case, ask for the peaks of the columns on
      `level` and store them under the case key. */
  function ApplyCases(rows: seq<Column>, level: string, cases: seq<string>, peak: PeakQuery): (r: seq<Column>)
    ensures |r| == |rows|
    decreases |cases|
  {
    if cases == [] then rows
    else
      var before := ApplyCases(rows, level, cases[..|cases| - 1], peak);
      var lc := cases[|cases| - 1];
      WithCaseColumn(before, CaseKey(lc), peak(lc, StoryNames(before, level)))
  }

  /** The table after a transfer: the per-case columns, then the combined column
      when more than one case is selected. */
  function AfterTransfer(rows: seq<Column>, level: string, cases: seq<string>, peak: PeakQuery): (r: seq<Column>)
    ensures |r| == |rows|
  {
    var r := ApplyCases(rows, level, cases, peak);
    if |cases| > 1 then WithSumColumn(r, CombinedKey(cases), CaseKeys(cases)) else r
  }

  // ------------------------------------------- per-row reference definitions

  /** What the per-case loop writes into the row named `name` when the peaks
      are requested for `names`. */
  function CaseColumns(name: string, names: seq<string>, cases: seq<string>, peak: PeakQuery): map<string, Option<real>>
    decreases |cases|
  {
    if cases == [] then map[]
    else
      var lc := cases[|cases| - 1];
      CaseColumns(name, names, cases[..|cases| - 1], peak)[CaseKey(lc) := Lookup(peak(lc, names), name)]
  }

  /** The sum over the selected cases of the force reported for `name`, zero when not reported. */
  function CaseSum(name: string, names: seq<string>, cases: seq<string>, peak: PeakQuery): real
    decreases |cases|
  {
    if cases == [] then 0.0
    else
      var lc := cases[|cases| - 1];
      CaseSum(name, names, cases[..|cases| - 1], peak) + OrZero(Lookup(peak(lc, names), name))
  }

  /** Every entry a transfer writes into the row named `name`. */
  function Written(name: string, names: seq<string>, cases: seq<string>, peak: PeakQuery): map<string, Option<real>>
  {
    var w := CaseColumns(name, names, cases, peak);
    if |cases| > 1 then w[CombinedKey(cases) := Some(CaseSum(name, names, cases, peak))] else w
  }

  /** A row with the transfer's entries laid over its existing load columns. */
  function Stamp(c: Column, names: seq<string>, cases: seq<string>, peak: PeakQuery): Column
  {
    c.(loads := c.loads + Written(c.name, names, cases, peak))
  }

  /** The key of each selected case carries that case's reported force. */
  lemma {:induction false} CaseColumnsAt(name: string, names: seq<string>, cases: seq<string>, peak: PeakQuery, c: string)
    requires c in cases
    ensures CaseKey(c) in CaseColumns(name, names, cases, peak)
    ensures CaseColumns(name, names, cases, peak)[CaseKey(c)] == Lookup(peak(c, names), name)
    decreases |cases|
  {
    var n := |cases| - 1;
    if cases[n] != c {
      assert c in cases[..n] by {
        var i :| 0 <= i < |cases| && cases[i] == c;
        assert i < n && cases[..n][i] == c;
      }
      CaseColumnsAt(name, names, cases[..n], peak, c);
      CaseKeyInjective(cases[n], c);
    }
  }

  /** The per-case loop writes exactly the per-case keys. */
  lemma {:induction false} CaseColumnsKeys(name: string, names: seq<string>, cases: seq<string>, peak: PeakQuery)
    ensures CaseColumns(name, names, cases, peak).Keys == set c | c in cases :: CaseKey(c)
    decreases |cases|
  {
    if cases != [] {
      var n := |cases| - 1;
      CaseColumnsKeys(name, names, cases[..n], peak);
      assert cases == cases[..n] + [cases[n]];
      assert forall c :: c in cases <==> c in cases[..n] || c == cases[n];
    }
  }

  /** The row-wise sum over the case keys is the sum of the reported forces,
      missing reports counting as zero. */
  lemma {:induction false} RowSumIsCaseSum(c: Column, names: seq<string>, cases: seq<string>, peak: PeakQuery)
    requires forall lc :: lc in cases ==> LoadOf(c, CaseKey(lc)) == Lookup(peak(lc, names), c.name)
    ensures RowSum(c, CaseKeys(cases)) == CaseSum(c.name, names, cases, peak)
    decreases |cases|
  {
    if cases != [] {
      var n := |cases| - 1;
      assert forall lc :: lc in cases[..n] ==> lc in cases;
      RowSumIsCaseSum(c, names, cases[..n], peak);
      var keys := CaseKeys(cases);
      assert keys[..|keys| - 1] == CaseKeys(cases[..n]);
      assert cases[n] in cases;
    }
  }

  /** The per-case loop overlays each row with that row's per-case entries;
      the peaks are requested for the names on `level` of the original table. */
  lemma {:induction false} ApplyCasesRows(rows: seq<Column>, level: string, cases: seq<string>, peak: PeakQuery)
    ensures |ApplyCases(rows, level, cases, peak)| == |rows|
    ensures forall i :: 0 <= i < |rows| ==>
      ApplyCases(rows, level, cases, peak)[i] ==
      rows[i].(loads := rows[i].loads + CaseColumns(rows[i].name, StoryNames(rows, level), cases, peak))
    decreases |cases|
  {
    if cases != [] {
      var n := |cases| - 1;
      var names := StoryNames(rows, level);
      var before := ApplyCases(rows, level, cases[..n], peak);
      ApplyCasesRows(rows, level, cases[..n], peak);
      var f := (c: Column) => c.(loads := c.loads + CaseColumns(c.name, names, cases[..n], peak));
      StoryNamesOfMapped(rows, before, level, f);
    }
  }

  /** A row carrying its per-case entries, once given the combined entry, is
      the row with all of the transfer's entries laid over it. */
  lemma SumStepRow(c: Column, names: seq<string>, cases: seq<string>, peak: PeakQuery)
    requires |cases| > 1
    ensures var r := c.(loads := c.loads + CaseColumns(c.name, names, cases, peak));
      r.(loads := r.loads[CombinedKey(cases) := Some(RowSum(r, CaseKeys(cases)))]) == Stamp(c, names, cases, peak)
  {
    var r := c.(loads := c.loads + CaseColumns(c.name, names, cases, peak));
    forall lc | lc in cases
      ensures LoadOf(r, CaseKey(lc)) == Lookup(peak(lc, names), r.name)
    {
      CaseColumnsAt(c.name, names, cases, peak, lc);
    }
    RowSumIsCaseSum(r, names, cases, peak);
  }

  /** The transfer overlays every row with its own written entries and changes nothing else. */
  lemma TransferRows(rows: seq<Column>, level: string, cases: seq<string>, peak: PeakQuery)
    ensures |AfterTransfer(rows, level, cases, peak)| == |rows|
    ensures forall i :: 0 <= i < |rows| ==>
      AfterTransfer(rows, level, cases, peak)[i] == Stamp(rows[i], StoryNames(rows, level), cases, peak)
  {
    var names := StoryNames(rows, level);
    ApplyCasesRows(rows, level, cases, peak);
    if |cases| > 1 {
      forall i | 0 <= i < |rows|
        ensures AfterTransfer(rows, level, cases, peak)[i] == Stamp(rows[i], names, cases, peak)
      {
        SumStepRow(rows[i], names, cases, peak);
      }
    }
  }

  /** Every selected case's key holds the force reported for the row's name,
      also after the combined column was added. */
  lemma CaseValueAfterTransfer(rows: seq<Column>, level: string, cases: seq<string>, peak: PeakQuery, i: int, lc: string)
    requires 0 <= i < |rows| && lc in cases
    ensures LoadOf(AfterTransfer(rows, level, cases, peak)[i], "P_max_" + lc) ==
            Lookup(peak(lc, StoryNames(rows, level)), rows[i].name)
  {
    TransferRows(rows, level, cases, peak);
    CaseColumnsAt(rows[i].name, StoryNames(rows, level), cases, peak, lc);
    if |cases| > 1 {
      CombinedKeyIsFresh(cases, lc);
    }
  }

  /** With two or more cases, the combined key holds the row's sum over the
      cases, a case with no reported force contributing zero. */
  lemma CombinedValueAfterTransfer(rows: seq<Column>, level: string, cases: seq<string>, peak: PeakQuery, i: int)
    requires 0 <= i < |rows| && |cases| >= 2
    ensures LoadOf(AfterTransfer(rows, level, cases, peak)[i], CombinedKey(cases)) ==
            Some(CaseSum(rows[i].name, StoryNames(rows, level), cases, peak))
  {
    TransferRows(rows, level, cases, peak);
  }

  /** The transfer writes exactly the per-case keys and, for several cases, the
      combined key; every other load column, the row's identity, story, source
      point and mapped point are unchanged. */
  lemma TransferKeepsTheRest(rows: seq<Column>, level: string, cases: seq<string>, peak: PeakQuery, i: int, key: string)
    requires 0 <= i < |rows|
    ensures var c := AfterTransfer(rows, level, cases, peak)[i];
      c.name == rows[i].name && c.story == rows[i].story &&
      c.point1 == rows[i].point1 && c.ram == rows[i].ram &&
      c.loads.Keys == rows[i].loads.Keys + (set lc | lc in cases :: CaseKey(lc)) +
                      (if |cases| > 1 then {CombinedKey(cases)} else {})
    ensures (forall lc :: lc in cases ==> key != CaseKey(lc)) && (|cases| > 1 ==> key != CombinedKey(cases)) ==>
      LoadOf(AfterTransfer(rows, level, cases, peak)[i], key) == LoadOf(rows[i], key)
  {
    TransferRows(rows, level, cases, peak);
    CaseColumnsKeys(rows[i].name, StoryNames(rows, level), cases, peak);
  }

  /** A column on another story, with a name unique in the table, asked for by
      no query: no force under any case key, and zero under the combined key. */
  lemma OtherStoryGetsNoForce(rows: seq<Column>, level: string, cases: seq<string>, peak: PeakQuery, i: int, lc: string)
    requires 0 <= i < |rows| && rows[i].story != level && lc in cases
    requires forall j :: 0 <= j < |rows| && rows[j].name == rows[i].name ==> j == i
    requires forall n :: n in peak(lc, StoryNames(rows, level)) ==> n in StoryNames(rows, level)
    ensures LoadOf(AfterTransfer(rows, level, cases, peak)[i], CaseKey(lc)) == None
  {
    CaseValueAfterTransfer(rows, level, cases, peak, i, lc);
    if rows[i].name in StoryNames(rows, level) {
      StoryNamesFrom(rows, level, rows[i].name);
    }
  }

  /** The sum over cases that report nothing for a name is zero. */
  lemma {:induction false} CaseSumUnreported(name: string, names: seq<string>, cases: seq<string>, peak: PeakQuery)
    requires forall lc :: lc in cases ==> name !in peak(lc, names)
    ensures CaseSum(name, names, cases, peak) == 0.0
    decreases |cases|
  {
    if cases != [] {
      var n := |cases| - 1;
      assert forall lc :: lc in cases[..n] ==> lc in cases;
      CaseSumUnreported(name, names, cases[..n], peak);
      assert cases[n] in cases;
    }
  }

  /** Such a column still gets the combined key, holding zero (the sum skips missing entries). */
  lemma OtherStoryCombinedIsZero(rows: seq<Column>, level: string, cases: seq<string>, peak: PeakQuery, i: int)
    requires 0 <= i < |rows| && rows[i].story != level && |cases| >= 2
    requires forall j :: 0 <= j < |rows| && rows[j].name == rows[i].name ==> j == i
    requires forall lc, n :: lc in cases && n in peak(lc, StoryNames(rows, level)) ==> n in StoryNames(rows, level)
    ensures LoadOf(AfterTransfer(rows, level, cases, peak)[i], CombinedKey(cases)) == Some(0.0)
  {
    CombinedValueAfterTransfer(rows, level, cases, peak, i);
    if rows[i].name in StoryNames(rows, level) {
      StoryNamesFrom(rows, level, rows[i].name);
    }
    CaseSumUnreported(rows[i].name, StoryNames(rows, level), cases, peak);
  }

  /** Re-running a transfer with the same selection and the same reports
      replaces the values it wrote before: two runs leave the table of one run. */
  lemma TransferIdempotent(rows: seq<Column>, level: string, cases: seq<string>, peak: PeakQuery)
    ensures AfterTransfer(AfterTransfer(rows, level, cases, peak), level, cases, peak) ==
            AfterTransfer(rows, level, cases, peak)
  {
    var once := AfterTransfer(rows, level, cases, peak);
    var names := StoryNames(rows, level);
    TransferRows(rows, level, cases, peak);
    TransferRows(once, level, cases, peak);
    StoryNamesOfMapped(rows, once, level, (c: Column) => Stamp(c, names, cases, peak));
    forall i | 0 <= i < |rows|
      ensures Stamp(once[i], names, cases, peak) == once[i]
    {
      var w := Written(rows[i].name, names, cases, peak);
      assert once[i].loads + w == once[i].loads;
    }
  }

  /** Calibration and transfer touch disjoint parts of a row, so their order does not matter. */
  lemma CalibrateCommutesWithTransfer(rows: seq<Column>, transform: Point -> Point, level: string, cases: seq<string>, peak: PeakQuery)
    ensures CalibrateRows(AfterTransfer(rows, level, cases, peak), transform) ==
            AfterTransfer(CalibrateRows(rows, transform), level, cases, peak)
  {
    var cal := CalibrateRows(rows, transform);
    TransferRows(rows, level, cases, peak);
    TransferRows(cal, level, cases, peak);
    StoryNamesOfMapped(rows, cal, level, (c: Column) => CalibrateRow(c, transform));
  }

  // ---------------------------------------------------------------- output

  /** The arguments of the write to the loading layer: three index-aligned lists. */
  datatype LayerInput = LayerInput(layer: string, xs: seq<real>, ys: seq<real>, values: seq<Option<real>>)

  /** The mapped x, mapped y and `key` values of the rows on `level`, in table order. */
  function LayerLoads(rows: seq<Column>, level: string, key: string, layer: string): LayerInput
    requires Calibrated(StoryRows(rows, level))
  {
    var s := StoryRows(rows, level);
    LayerInput(
      layer,
      seq(|s|, k requires 0 <= k < |s| => s[k].ram.value.x),
      seq(|s|, k requires 0 <= k < |s| => s[k].ram.value.y),
      seq(|s|, k requires 0 <= k < |s| => LoadOf(s[k], key)))
  }

  /** The rows of a calibrated table that are on a story are calibrated too. */
  lemma CalibratedStoryRows(rows: seq<Column>, level: string)
    requires Calibrated(rows)
    ensures Calibrated(StoryRows(rows, level))
  {
    var s := StoryRows(rows, level);
    StoryRowsMembers(rows, level);
    forall k | 0 <= k < |s| ensures s[k].ram.Some? {
      assert s[k] in s;
    }
  }

  /** The k-th entries of the three lists come from one row `c` on `level`,
      the k-th row named in the peak query. */
  predicate EmittedFrom(c: Column, out: LayerInput, k: int, rows: seq<Column>, level: string, key: string)
    requires 0 <= k < |out.xs| && k < |out.ys| && k < |out.values|
  {
    var names := StoryNames(rows, level);
    c.story == level && k < |names| && c.name == names[k] &&
    c.ram == Some(Point(out.xs[k], out.ys[k])) && LoadOf(c, key) == out.values[k]
  }

  /** Some row of the table is where the k-th entries of the lists come from. */
  predicate EmittedAt(out: LayerInput, k: int, rows: seq<Column>, level: string, key: string)
    requires 0 <= k < |out.xs| && k < |out.ys| && k < |out.values|
  {
    exists j :: 0 <= j < |rows| && EmittedFrom(rows[j], out, k, rows, level, key)
  }

  /** The three lists have equal length, the number of rows on the story; a
      story without rows gives three empty lists; the k-th entries of the lists
      belong to one row, the k-th of the peak query. */
  lemma LayerLoadsShape(rows: seq<Column>, level: string, key: string, layer: string)
    requires Calibrated(StoryRows(rows, level))
    ensures var out := LayerLoads(rows, level, key, layer);
      |out.xs| == |out.ys| == |out.values| == StoryCount(rows, level) == |StoryNames(rows, level)|
    ensures StoryCount(rows, level) == 0 ==> LayerLoads(rows, level, key, layer) == LayerInput(layer, [], [], [])
    ensures var out := LayerLoads(rows, level, key, layer);
      forall k :: 0 <= k < |out.xs| ==> EmittedAt(out, k, rows, level, key)
  {
    var s := StoryRows(rows, level);
    var out := LayerLoads(rows, level, key, layer);
    StoryRowsCount(rows, level);
    StoryRowsMembers(rows, level);
    forall k | 0 <= k < |out.xs|
      ensures EmittedAt(out, k, rows, level, key)
    {
      assert s[k] in s;
      var j :| 0 <= j < |rows| && rows[j] == s[k];
      assert EmittedFrom(rows[j], out, k, rows, level, key);
    }
  }

  /** End to end: after calibration and a transfer, the k-th value written out
      is, for the k-th column on the story, its single case's reported force or
      its sum over the selected cases. */
  lemma TransferOutputValues(rows: seq<Column>, level: string, cases: seq<string>, peak: PeakQuery, layer: string)
    requires Calibrated(rows) && |cases| >= 1
    ensures var after := AfterTransfer(rows, level, cases, peak);
      Calibrated(StoryRows(after, level)) &&
      var out := LayerLoads(after, level, OutputKey(cases), layer);
      var names := StoryNames(rows, level);
      |out.values| == |names| &&
      forall k :: 0 <= k < |names| ==>
        out.values[k] == if |cases| > 1 then Some(CaseSum(names[k], names, cases, peak))
                         else Lookup(peak(cases[0], names), names[k])
  {
    var after := AfterTransfer(rows, level, cases, peak);
    var names := StoryNames(rows, level);
    var f := (c: Column) => Stamp(c, names, cases, peak);
    TransferRows(rows, level, cases, peak);
    StoryRowsOfMapped(rows, after, level, f);
    CalibratedStoryRows(rows, level);
    OutputKeyChoice(cases);
    var s := StoryRows(rows, level);
    forall k | 0 <= k < |names|
      ensures LoadOf(StoryRows(after, level)[k], OutputKey(cases)) ==
        if |cases| > 1 then Some(CaseSum(names[k], names, cases, peak))
        else Lookup(peak(cases[0], names), names[k])
    {
      if |cases| == 1 {
        CaseColumnsAt(s[k].name, names, cases, peak, cases[0]);
      }
    }
  }
}
