/** The dashboard's persistent record (`PersistentDataManager`): odometer,
    trip, the two fuel accumulators, the selected style and a save counter,
    kept in memory and mirrored to one JSON file with a backup copy taken
    every 1000 saves.

    The file system is abstract: the file is missing, unreadable, or holds a
    (possibly partial) record; the outcome of each copy and write is a
    parameter; a successful write replaces the file with the whole record.
    Wall-clock time (`datetime.now()`, `time.time()`) is a parameter too. */
module Persistence {
  import opened Common

  /** The in-memory dictionary `self.data`. */
  datatype Record = Record(
    totalOdometer: real,
    tripOdometer: real,
    fuelUsed: real,
    fuelUsedBpw: real,
    dashboardStyle: int,
    lastUpdated: int,
    saveCount: int)

  /** A JSON object read back from disk: any of the keys may be absent. */
  datatype PartialRecord = PartialRecord(
    totalOdometer: Option<real>,
    tripOdometer: Option<real>,
    fuelUsed: Option<real>,
    fuelUsedBpw: Option<real>,
    dashboardStyle: Option<int>,
    lastUpdated: Option<int>,
    saveCount: Option<int>)

  /** The data file. `Corrupt` is a file whose contents `json.load` rejects. */
  datatype StoredFile = Missing | Corrupt | Stored(contents: PartialRecord)

  /** A copy of the data file taken at wall-clock second `time`. */
  datatype Backup = Backup(time: int, copy: StoredFile)

  /** Everything the manager can change: the record, the file, the backups
      taken, and the number of completed writes. */
  datatype Store = Store(data: Record, disk: StoredFile, backups: seq<Backup>, writes: nat)

  /** Odometer reading used when there is no saved data. */
  const DefaultOdometer: real := 89240.5

  /** A backup is taken on every save whose new count is a multiple of this. */
  const BackupInterval: int := 1000

  /** Minimum change of the odometer or trip that is worth a write. */
  const DistanceThreshold: real := 0.1

  /** Minimum change of either fuel accumulator that is worth a write. */
  const FuelThreshold: real := 0.01

  /** The hard-coded record of `__init__`, stamped with the current time. */
  function Defaults(now: int): (r: Record)
    ensures r.totalOdometer == DefaultOdometer && r.saveCount == 0 && r.dashboardStyle == 0
  {
    Record(DefaultOdometer, 0.0, 0.0, 0.0, 0, now, 0)
  }

  /** Every key of a record. */
  function Full(r: Record): PartialRecord
  {
    PartialRecord(Some(r.totalOdometer), Some(r.tripOdometer), Some(r.fuelUsed),
                  Some(r.fuelUsedBpw), Some(r.dashboardStyle), Some(r.lastUpdated),
                  Some(r.saveCount))
  }

  function Or<T>(o: Option<T>, d: T): T
  {
    if o.Some? then o.value else d
  }

  /** `dict.update`: every key present in `p` replaces the one in `base`. */
  function Merge(base: Record, p: PartialRecord): (r: Record)
    ensures p.totalOdometer.None? ==> r.totalOdometer == base.totalOdometer
    ensures p.totalOdometer.Some? ==> r.totalOdometer == p.totalOdometer.value
    ensures p.saveCount.None? ==> r.saveCount == base.saveCount
    ensures p.saveCount.Some? ==> r.saveCount == p.saveCount.value
  {
    Record(Or(p.totalOdometer, base.totalOdometer), Or(p.tripOdometer, base.tripOdometer),
           Or(p.fuelUsed, base.fuelUsed), Or(p.fuelUsedBpw, base.fuelUsedBpw),
           Or(p.dashboardStyle, base.dashboardStyle), Or(p.lastUpdated, base.lastUpdated),
           Or(p.saveCount, base.saveCount))
  }

  /** Reading back a whole record gives that record, whatever was in memory;
      merging the same keys twice is the same as merging them once. */
  lemma MergeLaws(base: Record, r: Record, p: PartialRecord)
    ensures Merge(base, Full(r)) == r
    ensures Merge(Merge(base, p), p) == Merge(base, p)
    ensures Merge(base, PartialRecord(None, None, None, None, None, None, None)) == base
  {
  }

  // ---------------------------------------------------------------------
  // save_data
  // ---------------------------------------------------------------------

  predicate BackupDue(count: int)
  {
    count % BackupInterval == 0
  }

  /** Whether the write of a save is reached: the backup copy, when it is
      attempted, raises when it fails and skips the write. */
  predicate WriteReached(s: Store, copyOk: bool)
  {
    !BackupDue(s.data.saveCount + 1) || s.disk == Missing || copyOk
  }

  /** `save_data`: stamps the record, raises the counter, copies the file
      when the new count is a multiple of 1000 and the file exists, then
      writes the whole record. Exceptions are caught, so the counter rises
      even when the copy or the write fails. */
  function SaveStep(s: Store, now: int, copyOk: bool, writeOk: bool): Store
  {
    var data := s.data.(lastUpdated := now, saveCount := s.data.saveCount + 1);
    var copying := BackupDue(data.saveCount) && s.disk != Missing;
    var backups := if copying && copyOk then s.backups + [Backup(now, s.disk)] else s.backups;
    if WriteReached(s, copyOk) && writeOk then
      Store(data, Stored(Full(data)), backups, s.writes + 1)
    else
      Store(data, s.disk, backups, s.writes)
  }

  /** Each save raises the counter by exactly one and changes nothing else in
      the record but its time stamp, whether or not the file operations fail;
      a backup is added only when the new count is a multiple of 1000 and
      the file exists; at most one write happens. */
  lemma SaveStepEffect(s: Store, now: int, copyOk: bool, writeOk: bool)
    ensures var t := SaveStep(s, now, copyOk, writeOk);
            t.data == s.data.(lastUpdated := now, saveCount := s.data.saveCount + 1) &&
            (|t.backups| == |s.backups| || (|t.backups| == |s.backups| + 1 && BackupDue(t.data.saveCount) && s.disk != Missing)) &&
            t.backups[..|s.backups|] == s.backups &&
            (t.writes == s.writes || t.writes == s.writes + 1) &&
            (t.disk != s.disk ==> t.writes == s.writes + 1)
  {
  }

  /** A completed write is read back as the record that was written. */
  lemma SaveThenLoad(s: Store, now: int, copyOk: bool, writeOk: bool, base: Record)
    requires writeOk && WriteReached(s, copyOk)
    ensures var t := SaveStep(s, now, copyOk, writeOk);
            t.disk.Stored? && Merge(base, t.disk.contents) == t.data
  {
    MergeLaws(base, SaveStep(s, now, copyOk, writeOk).data, Full(s.data));
  }

  /** The outcome of the file operations of one save: the wall-clock second,
      whether a backup copy succeeds, whether the write succeeds. */
  datatype SaveIo = SaveIo(now: int, copyOk: bool, writeOk: bool)

  function SaveAll(s: Store, ios: seq<SaveIo>): Store
    decreases |ios|
  {
    if ios == [] then s
    else SaveAll(SaveStep(s, ios[0].now, ios[0].copyOk, ios[0].writeOk), ios[1..])
  }

  /** Over any run of saves from a non-negative counter, the counter rises by
      the number of saves and no more backups are taken than there are
      multiples of 1000 among the new counts. */
  lemma {:induction false} SaveAllCounts(s: Store, ios: seq<SaveIo>)
    requires s.data.saveCount >= 0
    ensures var t := SaveAll(s, ios);
            t.data.saveCount == s.data.saveCount + |ios| &&
            |s.backups| <= |t.backups| <=
              |s.backups| + (s.data.saveCount + |ios|) / BackupInterval - s.data.saveCount / BackupInterval
    decreases |ios|
  {
    if ios != [] {
      var s' := SaveStep(s, ios[0].now, ios[0].copyOk, ios[0].writeOk);
      SaveStepEffect(s, ios[0].now, ios[0].copyOk, ios[0].writeOk);
      SaveAllCounts(s', ios[1..]);
      var c := s.data.saveCount;
      if BackupDue(c + 1) {
        assert (c + 1) / BackupInterval == c / BackupInterval + 1;
      } else {
        assert (c + 1) / BackupInterval == c / BackupInterval;
      }
    }
  }

  // ---------------------------------------------------------------------
  // update_data
  // ---------------------------------------------------------------------

  /** Whether new readings differ from the record enough to be worth a write. */
  predicate Significant(d: Record, totalOdo: real, tripOdo: real, fuelUsed: real, fuelUsedBpw: real)
  {
    Abs(d.totalOdometer - totalOdo) >= DistanceThreshold ||
    Abs(d.tripOdometer - tripOdo) >= DistanceThreshold ||
    Abs(d.fuelUsed - fuelUsed) >= FuelThreshold ||
    Abs(d.fuelUsedBpw - fuelUsedBpw) >= FuelThreshold
  }

  /** `update_data`: the four values are always stored; the record is saved
      only when one of them moved by at least its threshold. */
  function UpdateStep(s: Store, totalOdo: real, tripOdo: real, fuelUsed: real, fuelUsedBpw: real,
                      now: int, copyOk: bool, writeOk: bool): Store
  {
    var changed := Significant(s.data, totalOdo, tripOdo, fuelUsed, fuelUsedBpw);
    var s' := s.(data := s.data.(totalOdometer := totalOdo, tripOdometer := tripOdo,
                                 fuelUsed := fuelUsed, fuelUsedBpw := fuelUsedBpw));
    if changed then SaveStep(s', now, copyOk, writeOk) else s'
  }

  /** After an update the record holds the four given values; the counter
      rises by one exactly when some value moved by its threshold; the style
      is never touched. */
  lemma UpdateStepEffect(s: Store, totalOdo: real, tripOdo: real, fuelUsed: real, fuelUsedBpw: real,
                         now: int, copyOk: bool, writeOk: bool)
    ensures var t := UpdateStep(s, totalOdo, tripOdo, fuelUsed, fuelUsedBpw, now, copyOk, writeOk);
            t.data.totalOdometer == totalOdo && t.data.tripOdometer == tripOdo &&
            t.data.fuelUsed == fuelUsed && t.data.fuelUsedBpw == fuelUsedBpw &&
            t.data.dashboardStyle == s.data.dashboardStyle &&
            (t.data.saveCount == s.data.saveCount + 1 <==> Significant(s.data, totalOdo, tripOdo, fuelUsed, fuelUsedBpw)) &&
            (t.data.saveCount == s.data.saveCount <==> !Significant(s.data, totalOdo, tripOdo, fuelUsed, fuelUsedBpw))
  {
  }

  /** Repeating an update with the same values never saves again. */
  lemma UpdateIdempotent(s: Store, totalOdo: real, tripOdo: real, fuelUsed: real, fuelUsedBpw: real,
                         now: int, now': int, copyOk: bool, writeOk: bool)
    ensures var t := UpdateStep(s, totalOdo, tripOdo, fuelUsed, fuelUsedBpw, now, copyOk, writeOk);
            UpdateStep(t, totalOdo, tripOdo, fuelUsed, fuelUsedBpw, now', copyOk, writeOk) == t
  {
    var t := UpdateStep(s, totalOdo, tripOdo, fuelUsed, fuelUsedBpw, now, copyOk, writeOk);
    UpdateStepEffect(s, totalOdo, tripOdo, fuelUsed, fuelUsedBpw, now, copyOk, writeOk);
    assert !Significant(t.data, totalOdo, tripOdo, fuelUsed, fuelUsedBpw);
  }

  // ---------------------------------------------------------------------
  // load_data
  // ---------------------------------------------------------------------

  /** `__init__` followed by `load_data`: a readable file is merged over the
      defaults and not rewritten; an unreadable one leaves the defaults; a
      missing one makes the defaults be saved. */
  function LoadStep(disk: StoredFile, now: int, copyOk: bool, writeOk: bool): Store
  {
    var initial := Store(Defaults(now), disk, [], 0);
    match disk
    case Stored(p) => initial.(data := Merge(Defaults(now), p))
    case Corrupt => initial
    case Missing => SaveStep(initial, now, copyOk, writeOk)
  }

  /** Loading writes only when there was no file, and then the record is the
      defaults with a count of one; a file written by a save loads back as
      the record that was saved. */
  lemma LoadStepEffect(disk: StoredFile, now: int, copyOk: bool, writeOk: bool, r: Record)
    ensures var s := LoadStep(disk, now, copyOk, writeOk);
            s.backups == [] &&
            (disk != Missing ==> s.writes == 0 && s.disk == disk) &&
            (disk == Missing ==> s.data == Defaults(now).(saveCount := 1) && s.writes == (if writeOk then 1 else 0)) &&
            (disk == Corrupt ==> s.data == Defaults(now))
    ensures LoadStep(Stored(Full(r)), now, copyOk, writeOk).data == r
  {
    MergeLaws(Defaults(now), r, Full(r));
  }

  // ---------------------------------------------------------------------
  // send_init_data
  // ---------------------------------------------------------------------

  /** Average fuel economy over the trip: trip miles over both fuel
      accumulators, capped at 50, and 0 unless both are above 0.01. The
      same formula is used by `send_init_data` and by the distance
      integration of the serial reader. */
  function AverageMpg(tripOdo: real, fuelUsed: real, fuelUsedBpw: real): (mpg: real)
    ensures 0.0 <= mpg <= 50.0
    ensures var total := fuelUsed + fuelUsedBpw;
            (mpg > 0.0 <==> total > 0.01 && tripOdo > 0.01) &&
            (total > 0.01 && tripOdo > 0.01 && tripOdo <= 50.0 * total ==> mpg * total == tripOdo) &&
            (total > 0.01 && tripOdo > 0.01 && tripOdo > 50.0 * total ==> mpg == 50.0)
  {
    var total := fuelUsed + fuelUsedBpw;
    if total > 0.01 && tripOdo > 0.01 then
      var avg := tripOdo / total;
      assert avg * total == tripOdo;
      if avg > 50.0 then 50.0 else avg
    else 0.0
  }

  /** Messages the dashboard writes to the firmware. */
  datatype PiMessage =
    | InitData(fuelUsed: real, fuelUsedBpw: real)
    | AvgMpgUpdate(mpg: real)

  /** `send_init_data`: nothing when the port is closed; otherwise the two
      fuel accumulators, then the average. */
  function InitMessages(d: Record, portOpen: bool): (msgs: seq<PiMessage>)
    ensures !portOpen ==> msgs == []
    ensures portOpen ==> |msgs| == 2 && msgs[0] == InitData(d.fuelUsed, d.fuelUsedBpw) &&
                         msgs[1].AvgMpgUpdate? && 0.0 <= msgs[1].mpg <= 50.0
  {
    if portOpen then [InitData(d.fuelUsed, d.fuelUsedBpw),
                      AvgMpgUpdate(AverageMpg(d.tripOdometer, d.fuelUsed, d.fuelUsedBpw))]
    else []
  }

  // ---------------------------------------------------------------------
  // The manager object
  // ---------------------------------------------------------------------

  class PersistentDataManager {
    var data: Record
    var disk: StoredFile
    var backups: seq<Backup>
    var writes: nat

    function Snapshot(): Store
      reads this
    {
      Store(data, disk, backups, writes)
    }

    /** `PersistentDataManager()`: defaults, then `load_data`. */
    constructor (file: StoredFile, now: int, copyOk: bool, writeOk: bool)
      ensures Snapshot() == LoadStep(file, now, copyOk, writeOk)
    {
      data := Defaults(now);
      disk := file;
      backups := [];
      writes := 0;
      new;
      match file {
        case Stored(p) =>
          data := Merge(data, p);
        case Corrupt =>
        case Missing =>
          SaveData(now, copyOk, writeOk);
      }
    }

    method SaveData(now: int, copyOk: bool, writeOk: bool)
      modifies this
      ensures Snapshot() == SaveStep(old(Snapshot()), now, copyOk, writeOk)
    {
      data := data.(lastUpdated := now);
      data := data.(saveCount := data.saveCount + 1);
      var reached := true;
      if data.saveCount % BackupInterval == 0 {
        if disk != Missing {
          if copyOk {
            backups := backups + [Backup(now, disk)];
          } else {
            reached := false;
          }
        }
      }
      if reached && writeOk {
        disk := Stored(Full(data));
        writes := writes + 1;
      }
    }

    method UpdateData(totalOdo: real, tripOdo: real, fuelUsed: real, fuelUsedBpw: real,
                      now: int, copyOk: bool, writeOk: bool)
      modifies this
      ensures Snapshot() == UpdateStep(old(Snapshot()), totalOdo, tripOdo, fuelUsed, fuelUsedBpw, now, copyOk, writeOk)
    {
      var odoChanged := Abs(data.totalOdometer - totalOdo) >= DistanceThreshold;
      var tripChanged := Abs(data.tripOdometer - tripOdo) >= DistanceThreshold;
      var fuelChanged := Abs(data.fuelUsed - fuelUsed) >= FuelThreshold;
      var bpwChanged := Abs(data.fuelUsedBpw - fuelUsedBpw) >= FuelThreshold;
      data := data.(totalOdometer := totalOdo, tripOdometer := tripOdo,
                    fuelUsed := fuelUsed, fuelUsedBpw := fuelUsedBpw);
      if odoChanged || tripChanged || fuelChanged || bpwChanged {
        SaveData(now, copyOk, writeOk);
      }
    }

    /** `send_init_data`: reads the record and changes nothing. */
    method SendInitData(portOpen: bool) returns (msgs: seq<PiMessage>)
      ensures !portOpen ==> msgs == []
      ensures portOpen ==> msgs == [InitData(data.fuelUsed, data.fuelUsedBpw),
                                    AvgMpgUpdate(AverageMpg(data.tripOdometer, data.fuelUsed, data.fuelUsedBpw))]
    {
      msgs := [];
      if portOpen {
        msgs := msgs + [InitData(data.fuelUsed, data.fuelUsedBpw)];
        var totalFuelUsed := data.fuelUsed + data.fuelUsedBpw;
        if totalFuelUsed > 0.01 && data.tripOdometer > 0.01 {
          var avgMpg := data.tripOdometer / totalFuelUsed;
          if avgMpg > 50.0 {
            avgMpg := 50.0;
          }
          msgs := msgs + [AvgMpgUpdate(avgMpg)];
        } else {
          msgs := msgs + [AvgMpgUpdate(0.0)];
        }
      }
    }
  }
}
