/** The application's shared column table and the two actions that change it
    in place: calibration writes the mapped coordinates of every row, and a
    load transfer adds the load columns and produces the loading-layer lists. */
module LoadTransfer {
  import opened LoadKeys
  import opened ColumnData

  /** One column as the column finder returns it from the analysis model's frame
      elements, before any RAM or load column is added. */
  datatype ColumnRecord = ColumnRecord(name: string, story: string, point1: Point)

  datatype TransferError =
    | CalibrationMissing    // the RAM_X/RAM_Y columns do not exist yet
    | NoLoadCaseSelected    // no key to write out

  datatype Result<T> = Success(value: T) | Failure(error: TransferError)

  class ColumnTable {
    var rows: seq<Column>
    /** Whether the RAM_X/RAM_Y columns exist. */
    var calibrated: bool
    /** The load columns of the table. */
    ghost var loadKeys: set<string>

    /** A rectangular table: the mapped columns exist for all rows or for none,
        and every row has an entry for every load column. */
    ghost predicate Valid()
      reads this
    {
      (calibrated ==> Calibrated(rows)) &&
      (!calibrated ==> forall i :: 0 <= i < |rows| ==> rows[i].ram.None?) &&
      (forall i :: 0 <= i < |rows| ==> rows[i].loads.Keys == loadKeys)
    }

    /** The table as it is pulled from the analysis model: one row per column found. */
    constructor (columns: seq<ColumnRecord>)
      ensures Valid() && !calibrated && loadKeys == {}
      ensures |rows| == |columns|
      ensures forall i :: 0 <= i < |columns| ==>
        rows[i] == Column(columns[i].name, columns[i].story, columns[i].point1, None, map[])
    {
      rows := seq(|columns|, i requires 0 <= i < |columns| =>
        Column(columns[i].name, columns[i].story, columns[i].point1, None, map[]));
      calibrated := false;
      loadKeys := {};
    }

    /** Row by row, store the transform of the row's source point as its mapped
        point. On a table without rows the row-wise apply yields no RAM columns
        to assign, the assignment fails, and nothing changes. */
    method Calibrate(transform: Point -> Point) returns (applied: bool)
      requires Valid()
      modifies this
      ensures Valid() && loadKeys == old(loadKeys)
      ensures applied <==> |old(rows)| > 0
      ensures applied ==> calibrated && rows == CalibrateRows(old(rows), transform)
      ensures !applied ==> calibrated == old(calibrated) && rows == old(rows)
    {
      if |rows| == 0 {
        return false;
      }
      var mapped: seq<Column> := [];
      var i := 0;
      while i < |rows|
        invariant 0 <= i <= |rows|
        invariant |mapped| == i
        invariant forall j :: 0 <= j < i ==> mapped[j] == CalibrateRow(rows[j], transform)
      {
        mapped := mapped + [CalibrateRow(rows[i], transform)];
        i := i + 1;
      }
      rows := mapped;
      calibrated := true;
      applied := true;
    }

    /** `df[key] = df["MyNames"].map(reported)`, row by row. */
    method AssignCaseColumn(key: string, reported: map<string, real>)
      requires Valid()
      modifies this
      ensures Valid() && calibrated == old(calibrated) && loadKeys == old(loadKeys) + {key}
      ensures rows == WithCaseColumn(old(rows), key, reported)
    {
      var updated: seq<Column> := [];
      var i := 0;
      while i < |rows|
        invariant 0 <= i <= |rows|
        invariant |updated| == i
        invariant forall j :: 0 <= j < i ==>
          updated[j] == rows[j].(loads := rows[j].loads[key := Lookup(reported, rows[j].name)])
      {
        updated := updated + [rows[i].(loads := rows[i].loads[key := Lookup(reported, rows[i].name)])];
        i := i + 1;
      }
      rows := updated;
      loadKeys := loadKeys + {key};
    }

    /** `df[key] = df[keys].sum(axis=1)`, row by row. */
    method AssignSumColumn(key: string, keys: seq<string>)
      requires Valid()
      modifies this
      ensures Valid() && calibrated == old(calibrated) && loadKeys == old(loadKeys) + {key}
      ensures rows == WithSumColumn(old(rows), key, keys)
    {
      var updated: seq<Column> := [];
      var i := 0;
      while i < |rows|
        invariant 0 <= i <= |rows|
        invariant |updated| == i
        invariant forall j :: 0 <= j < i ==>
          updated[j] == rows[j].(loads := rows[j].loads[key := Some(RowSum(rows[j], keys))])
      {
        updated := updated + [rows[i].(loads := rows[i].loads[key := Some(RowSum(rows[i], keys))])];
        i := i + 1;
      }
      rows := updated;
      loadKeys := loadKeys + {key};
    }

    /** Transfer the peak axial forces of the selected cases for the columns on
        `level` to the loading layer `layer`. The load columns are written
        before the output lists are read, so a failure leaves them in place. */
    method TransferLoads(level: string, cases: seq<string>, layer: string, peak: PeakQuery)
      returns (result: Result<LayerInput>)
      requires Valid()
      modifies this
      ensures Valid() && calibrated == old(calibrated)
      ensures rows == AfterTransfer(old(rows), level, cases, peak)
      ensures loadKeys == old(loadKeys) + set k | k in WrittenKeys(cases)
      ensures !calibrated ==> result == Failure(CalibrationMissing)
      ensures calibrated && cases == [] ==> result == Failure(NoLoadCaseSelected)
      ensures calibrated && cases != [] ==>
        Calibrated(StoryRows(rows, level)) &&
        result == Success(LayerLoads(rows, level, OutputKey(cases), layer))
    {
      var keys: seq<string> := [];
      var i := 0;
      while i < |cases|
        invariant 0 <= i <= |cases|
        invariant Valid() && calibrated == old(calibrated)
        invariant keys == CaseKeys(cases[..i])
        invariant loadKeys == old(loadKeys) + set k | k in keys
        invariant rows == ApplyCases(old(rows), level, cases[..i], peak)
      {
        var lc := cases[i];
        var reported := peak(lc, StoryNames(rows, level));
        keys := keys + [CaseKey(lc)];
        AssignCaseColumn(keys[i], reported);
        assert cases[..i + 1][..i] == cases[..i];
        i := i + 1;
      }
      assert cases[..|cases|] == cases;
      if |keys| > 1 {
        var combined := Join("_", ["P_max"] + cases);
        AssignSumColumn(combined, keys);
        keys := keys + [combined];
      }
      assert keys == WrittenKeys(cases);
      if !calibrated {
        result := Failure(CalibrationMissing);
      } else if |keys| == 0 {
        result := Failure(NoLoadCaseSelected);
      } else {
        CalibratedStoryRows(rows, level);
        result := Success(LayerLoads(rows, level, keys[|keys| - 1], layer));
      }
    }
  }
}
