/**
  The telemetry snapshot (`self.updates`) as values: the field names, the
  reset value, how one poll of the printer host becomes a candidate record
  (OctoPrint: two responses; Moonraker: one object query), and what the
  reconcile step makes of the snapshot and a candidate.
 */
module Telemetry {
  import opened Values
  import opened Helpers

  // ---------------------------------------------------------------------
  // Field names

  const StatusKey: string := "status"
  const JobStateKey: string := "job_state"
  const JobErrorKey: string := "job_error"
  const FileNameKey: string := "file_name"
  const ProgressKey: string := "progress"
  const PrintTimeKey: string := "print_time"
  const PrintTimeLeftKey: string := "print_time_left"
  const BedTargetKey: string := "bed_temperature_target"
  const NozzleTargetKey: string := "nozzle_temperature_target"
  const PrintStatsKey: string := "print_stats"
  const CancelledKey: string := "cancelled"
  const UploadProgressKey: string := "uploading_file_progress"

  /** Lengths and first letters that tell the field names apart. */
  lemma KeyShapes()
    ensures |BedTemperature| == 15 && |NozzleTemperature| == 18 && |BedTargetKey| == 22
    ensures |NozzleTargetKey| == 25 && |StatusKey| == 6 && |PrintStatsKey| == 11
    ensures |CancelledKey| == 9 && |JobStateKey| == 9 && |JobErrorKey| == 9 && |FileNameKey| == 9
    ensures |ProgressKey| == 8 && |PrintTimeKey| == 10 && |PrintTimeLeftKey| == 15
    ensures |UploadProgressKey| == 23
    ensures CancelledKey[0] == 'c' && JobStateKey[0] == 'j' && JobErrorKey[0] == 'j' && FileNameKey[0] == 'f'
    ensures JobStateKey[4] == 's' && JobErrorKey[4] == 'e'
    ensures BedTemperature[0] == 'b' && PrintTimeLeftKey[0] == 'p'
  {
  }

  /** Every field of the snapshot that `initialUpdatesValues` builds. */
  const SnapshotKeys: set<string> := {
    BedTemperature, NozzleTemperature, BedTargetKey, NozzleTargetKey, StatusKey,
    PrintStatsKey, CancelledKey, JobStateKey, JobErrorKey, FileNameKey, ProgressKey,
    PrintTimeKey, PrintTimeLeftKey, UploadProgressKey
  }

  /** The fields of the Moonraker candidate record. */
  const MoonrakerKeys: set<string> := {
    NozzleTemperature, NozzleTargetKey, BedTemperature, BedTargetKey, StatusKey,
    JobStateKey, FileNameKey, ProgressKey, PrintTimeKey, PrintTimeLeftKey
  }

  /** The fields of the OctoPrint candidate record. */
  const OctoPrintKeys: set<string> := {
    StatusKey, BedTemperature, NozzleTemperature, BedTargetKey, NozzleTargetKey,
    JobStateKey, JobErrorKey, FileNameKey, ProgressKey, PrintTimeKey, PrintTimeLeftKey
  }

  const EmptyObj: Value := Obj(map[])

  /** `v.get(key, {})` where `v` may not be a dictionary: the value under
      `key`, `{}` when it is missing, and None when `v` is no dictionary
      (the call raises, and None is no dictionary either). */
  function Child(v: Value, key: string): (r: Value)
    ensures v.Obj? && key in v.fields ==> r == v.fields[key]
    ensures v.Obj? && key !in v.fields ==> r == EmptyObj
    ensures !v.Obj? ==> r == Null
  {
    if v.Obj? then Field(v.fields, key, EmptyObj) else Null
  }

  /** The nested `print_stats` record of a fresh snapshot: five keys, all None. */
  const EmptyPrintStats: Value := Obj(map[
    "filename" := Null, "total_duration" := Null, "print_duration" := Null,
    "state" := Null, "message" := Null])

  // ---------------------------------------------------------------------
  // Reset

  /** `initialUpdatesValues`: every field None except `status`, which takes
      the bridge's last known printer status, and the nested `print_stats`
      record, which is present with all of its own fields None. */
  function InitialUpdates(status: Value): (u: map<string, Value>)
    ensures u.Keys == SnapshotKeys
    ensures u[StatusKey] == status && u[PrintStatsKey] == EmptyPrintStats
    ensures forall k :: k in u && k != StatusKey && k != PrintStatsKey ==> u[k] == Null
  {
    KeyShapes();
    map[BedTemperature := Null, NozzleTemperature := Null, BedTargetKey := Null,
        NozzleTargetKey := Null, StatusKey := status, PrintStatsKey := EmptyPrintStats,
        CancelledKey := Null, JobStateKey := Null, JobErrorKey := Null,
        FileNameKey := Null, ProgressKey := Null, PrintTimeKey := Null,
        PrintTimeLeftKey := Null, UploadProgressKey := Null]
  }

  /** A freshly reset snapshot always has a non-None value (the `print_stats`
      record), whatever the status, so the push gate's "some value is set"
      test never holds back the first frame after a reset. */
  lemma ResetSnapshotIsReportable(status: Value)
    ensures AnyNonNull(InitialUpdates(status))
  {
    var u := InitialUpdates(status);
    assert u[PrintStatsKey] != Null;
  }

  // ---------------------------------------------------------------------
  // Moonraker: state mapping and time left

  /** The Klipper `print_stats.state`, lower-cased, mapped to the
      OctoPrint-style (status, job_state) pair: 'standby' reports as
      'operational', every other state keeps its lower-cased name. */
  function KlipperStateMap(rawState: string): (r: (string, string))
    ensures Lower(rawState) == "standby" ==> r.0 == "operational"
    ensures Lower(rawState) != "standby" ==> r.0 == Lower(rawState)
  {
    var klipperState := Lower(rawState);
    if klipperState == "printing" then ("printing", "Printing")
    else if klipperState == "paused" then ("paused", "Paused")
    else if klipperState == "complete" then ("complete", "Complete")
    else if klipperState == "standby" then ("operational", "Operational")
    else if klipperState == "error" then ("error", "Error")
    else (klipperState, Capitalize(klipperState))
  }

  /** `Capitalize` on a word given character by character. */
  lemma CapitalizeWord(s: string, t: string)
    requires |s| == |t| > 0 && t[0] == UpperChar(s[0])
    requires forall i :: 1 <= i < |s| ==> t[i] == LowerChar(s[i])
    ensures Capitalize(s) == t
  {
    var c := Capitalize(s);
    assert c[1..] == Lower(s[1..]);
    forall i | 1 <= i < |s|
      ensures c[i] == t[i]
    {
      assert c[i] == c[1..][i - 1];
    }
  }

  /** The job state is always the capitalised status, for the five named
      states as for the pass-through case. */
  lemma KlipperJobStateCapitalized(rawState: string)
    ensures KlipperStateMap(rawState).1 == Capitalize(KlipperStateMap(rawState).0)
  {
    var k := Lower(rawState);
    if k == "printing" {
      PrintingCapitalized();
    } else if k == "paused" {
      PausedCapitalized();
    } else if k == "complete" {
      CompleteCapitalized();
    } else if k == "standby" {
      OperationalCapitalized();
    } else if k == "error" {
      ErrorCapitalized();
    }
  }

  lemma PrintingCapitalized()
    ensures Capitalize("printing") == "Printing"
  {
    CapitalizeWord("printing", "Printing");
  }

  lemma PausedCapitalized()
    ensures Capitalize("paused") == "Paused"
  {
    CapitalizeWord("paused", "Paused");
  }

  lemma CompleteCapitalized()
    ensures Capitalize("complete") == "Complete"
  {
    CapitalizeWord("complete", "Complete");
  }

  lemma OperationalCapitalized()
    ensures Capitalize("operational") == "Operational"
  {
    CapitalizeWord("operational", "Operational");
  }

  lemma ErrorCapitalized()
    ensures Capitalize("error") == "Error"
  {
    CapitalizeWord("error", "Error");
  }

  /** Estimated remaining seconds from the elapsed print time and the
      percentage done; 0.0 unless both are positive. */
  function TimeLeft(progress: real, printTime: real): (r: real)
    ensures progress > 0.0 && printTime > 0.0 ==> r * progress == printTime * (100.0 - progress)
    ensures !(progress > 0.0 && printTime > 0.0) ==> r == 0.0
  {
    if progress > 0.0 && printTime > 0.0 then (printTime / progress) * (100.0 - progress)
    else 0.0
  }

  /** Time left is never negative while the percentage is in range, and is 0
      once the print reaches 100 percent. */
  lemma TimeLeftInRange(progress: real, printTime: real)
    requires 0.0 < progress <= 100.0
    ensures TimeLeft(progress, printTime) >= 0.0
    ensures progress == 100.0 ==> TimeLeft(progress, printTime) == 0.0
  {
    if printTime > 0.0 {
      var quotient := printTime / progress;
      assert quotient > 0.0;
      assert TimeLeft(progress, printTime) == quotient * (100.0 - progress);
    }
  }

  /** The temperature half of the Moonraker candidate: `temperature` and
      `target` of the extruder and the heated bed, 0.0 when missing. */
  function MoonrakerTemperatures(extruder: map<string, Value>, heaterBed: map<string, Value>)
    : (r: map<string, Value>)
    ensures r.Keys == {NozzleTemperature, NozzleTargetKey, BedTemperature, BedTargetKey}
    ensures r[NozzleTemperature] == Field(extruder, "temperature", Num(0.0))
    ensures r[BedTemperature] == Field(heaterBed, "temperature", Num(0.0))
    ensures r[NozzleTargetKey] == Field(extruder, "target", Num(0.0))
    ensures r[BedTargetKey] == Field(heaterBed, "target", Num(0.0))
  {
    map[NozzleTemperature := Field(extruder, "temperature", Num(0.0)),
        NozzleTargetKey := Field(extruder, "target", Num(0.0)),
        BedTemperature := Field(heaterBed, "temperature", Num(0.0)),
        BedTargetKey := Field(heaterBed, "target", Num(0.0))]
  }

  /** The job half of the Moonraker candidate, from `print_stats` and
      `virtual_sdcard`. It raises exactly when the state is not a string,
      the SD card progress is not a number, or the print is under way and
      the elapsed time is not a number. */
  function MoonrakerJob(printStats: map<string, Value>, virtualSdcard: map<string, Value>)
    : (r: Result<map<string, Value>>)
    ensures r.Ok? <==>
              Field(printStats, "state", Str("")).Str?
              && AsNumber(Field(virtualSdcard, "progress", Num(0.0))).Some?
              && (AsNumber(Field(virtualSdcard, "progress", Num(0.0))).value > 0.0 ==>
                    AsNumber(Field(printStats, "print_duration", Num(0.0))).Some?)
    ensures r.Ok? ==>
              var progress := AsNumber(Field(virtualSdcard, "progress", Num(0.0))).value * 100.0;
              && r.value.Keys == {StatusKey, JobStateKey, FileNameKey, ProgressKey, PrintTimeKey, PrintTimeLeftKey}
              && (r.value[StatusKey], r.value[JobStateKey])
                 == (Str(KlipperStateMap(Field(printStats, "state", Str("")).s).0),
                     Str(KlipperStateMap(Field(printStats, "state", Str("")).s).1))
              && r.value[FileNameKey] == Field(printStats, "filename", Null)
              && r.value[ProgressKey] == Num(progress)
              && r.value[PrintTimeKey] == Field(printStats, "print_duration", Num(0.0))
              && r.value[PrintTimeLeftKey].Num?
              && (progress > 0.0 ==>
                    r.value[PrintTimeLeftKey].r
                    == TimeLeft(progress, AsNumber(Field(printStats, "print_duration", Num(0.0))).value))
              && (progress <= 0.0 ==> r.value[PrintTimeLeftKey] == Num(0.0))
  {
    KeyShapes();
    var stateText :- AsText(Field(printStats, "state", Str("")));
    var (st, jobState) := KlipperStateMap(stateText);
    var fraction :- Numeric(Field(virtualSdcard, "progress", Num(0.0)));
    var progress := fraction * 100.0;
    var printTime := Field(printStats, "print_duration", Num(0.0));
    var timeLeft :-
      if progress > 0.0 then
        var elapsed :- Numeric(printTime);
        Ok(TimeLeft(progress, elapsed))
      else Ok(0.0);
    Ok(map[StatusKey := Str(st), JobStateKey := Str(jobState),
           FileNameKey := Field(printStats, "filename", Null), ProgressKey := Num(progress),
           PrintTimeKey := printTime, PrintTimeLeftKey := Num(timeLeft)])
  }

  /** The candidate record of one Moonraker object query
      (`extruder`, `heater_bed`, `print_stats`, `virtual_sdcard`), or
      `Raised` when the body is not a dictionary all the way down to those
      four objects, or its job half raises. */
  function MoonrakerCandidate(printerData: Value): (r: Result<map<string, Value>>)
    ensures !printerData.Obj? ==> r == Raised
    ensures var status := Child(Child(printerData, "result"), "status");
            r.Ok? <==> Child(status, "extruder").Obj? && Child(status, "heater_bed").Obj?
                       && Child(status, "print_stats").Obj? && Child(status, "virtual_sdcard").Obj?
                       && MoonrakerJob(Child(status, "print_stats").fields,
                                       Child(status, "virtual_sdcard").fields).Ok?
    ensures var status := Child(Child(printerData, "result"), "status");
            r.Ok? ==> r.value == MoonrakerTemperatures(Child(status, "extruder").fields,
                                                       Child(status, "heater_bed").fields)
                                 + MoonrakerJob(Child(status, "print_stats").fields,
                                                Child(status, "virtual_sdcard").fields).value
    ensures r.Ok? ==> r.value.Keys == MoonrakerKeys
  {
    var data :- AsObj(printerData);
    var result :- AsObj(Field(data, "result", EmptyObj));
    var status :- AsObj(Field(result, "status", EmptyObj));
    var extruder :- AsObj(Field(status, "extruder", EmptyObj));
    var heaterBed :- AsObj(Field(status, "heater_bed", EmptyObj));
    var printStats :- AsObj(Field(status, "print_stats", EmptyObj));
    var virtualSdcard :- AsObj(Field(status, "virtual_sdcard", EmptyObj));
    var job :- MoonrakerJob(printStats, virtualSdcard);
    Ok(MoonrakerTemperatures(extruder, heaterBed) + job)
  }

  /** A query answer with none of the expected objects still yields a full
      candidate: temperatures, progress and times default to 0.0, the file
      name to None, and the missing state to ('', ''). */
  lemma MoonrakerDefaults()
    ensures MoonrakerCandidate(EmptyObj).Ok?
    ensures var c := MoonrakerCandidate(EmptyObj).value;
            c[StatusKey] == Str("") && c[JobStateKey] == Str("") && c[FileNameKey] == Null
            && c[NozzleTemperature] == Num(0.0) && c[BedTemperature] == Num(0.0)
            && c[ProgressKey] == Num(0.0) && c[PrintTimeLeftKey] == Num(0.0)
  {
    assert Lower("") == "";
    assert KlipperStateMap("") == ("", "");
  }

  // ---------------------------------------------------------------------
  // OctoPrint: the `/api/printer` and `/api/job` halves of the candidate

  /** The printer status of `/api/printer`: `state.text` lower-cased,
      'unknown' when missing; raises when `state` is not a dictionary or the
      text is not a string. */
  function OctoPrintStatus(info: map<string, Value>): (r: Result<string>)
    ensures r.Ok? <==> (Field(info, "state", EmptyObj).Obj?
                        && Field(Field(info, "state", EmptyObj).fields, "text", Str("unknown")).Str?)
    ensures r.Ok? ==> IsLowerText(r.value)
    ensures r.Ok? ==> r.value == Lower(Field(Field(info, "state", EmptyObj).fields, "text", Str("unknown")).s)
  {
    var state :- AsObj(Field(info, "state", EmptyObj));
    var statusText :- AsText(Field(state, "text", Str("unknown")));
    Ok(Lower(statusText))
  }

  /** The fields read from `/api/printer`: the status and the four
      temperatures (default 0.0). Raises when the body or a nested object is
      not a dictionary or the status text is not a string. */
  function OctoPrintPrinterFields(printerInfo: Value): (r: Result<map<string, Value>>)
    ensures !printerInfo.Obj? ==> r == Raised
    ensures r.Ok? ==> r.value.Keys == {StatusKey, BedTemperature, NozzleTemperature, BedTargetKey, NozzleTargetKey}
    ensures r.Ok? <==> printerInfo.Obj? && OctoPrintStatus(printerInfo.fields).Ok?
                       && Child(Child(printerInfo, "temperature"), "bed").Obj?
                       && Child(Child(printerInfo, "temperature"), "tool0").Obj?
    ensures r.Ok? ==> printerInfo.Obj? && OctoPrintStatus(printerInfo.fields).Ok?
                      && r.value[StatusKey] == Str(OctoPrintStatus(printerInfo.fields).value)
    ensures r.Ok? ==>
              var bed := Child(Child(printerInfo, "temperature"), "bed").fields;
              var tool0 := Child(Child(printerInfo, "temperature"), "tool0").fields;
              && r.value[BedTemperature] == Field(bed, "actual", Num(0.0))
              && r.value[NozzleTemperature] == Field(tool0, "actual", Num(0.0))
              && r.value[BedTargetKey] == Field(bed, "target", Num(0.0))
              && r.value[NozzleTargetKey] == Field(tool0, "target", Num(0.0))
  {
    var info :- AsObj(printerInfo);
    var status :- OctoPrintStatus(info);
    var temperature :- AsObj(Field(info, "temperature", EmptyObj));
    var bed :- AsObj(Field(temperature, "bed", EmptyObj));
    var tool0 :- AsObj(Field(temperature, "tool0", EmptyObj));
    Ok(PrinterRecord(status, bed, tool0))
  }

  /** The `/api/printer` record once every nested object is a dictionary. */
  function PrinterRecord(status: string, bed: map<string, Value>, tool0: map<string, Value>)
    : (r: map<string, Value>)
    ensures r.Keys == {StatusKey, BedTemperature, NozzleTemperature, BedTargetKey, NozzleTargetKey}
    ensures r[StatusKey] == Str(status)
    ensures r[BedTemperature] == Field(bed, "actual", Num(0.0))
    ensures r[NozzleTemperature] == Field(tool0, "actual", Num(0.0))
    ensures r[BedTargetKey] == Field(bed, "target", Num(0.0))
    ensures r[NozzleTargetKey] == Field(tool0, "target", Num(0.0))
  {
    KeyShapes();
    map[StatusKey := Str(status),
        BedTemperature := Field(bed, "actual", Num(0.0)),
        NozzleTemperature := Field(tool0, "actual", Num(0.0)),
        BedTargetKey := Field(bed, "target", Num(0.0)),
        NozzleTargetKey := Field(tool0, "target", Num(0.0))]
  }

  /** The fields read from `/api/job`: state, error and file name default to
      None; completion, printTime and printTimeLeft default to 0.0. Raises
      exactly when the body, `job`, `job.file` or `progress` is not a
      dictionary. */
  function OctoPrintJobFields(printerJob: Value): (r: Result<map<string, Value>>)
    ensures r.Ok? <==>
              printerJob.Obj?
              && Field(printerJob.fields, "job", EmptyObj).Obj?
              && Field(Field(printerJob.fields, "job", EmptyObj).fields, "file", EmptyObj).Obj?
              && Field(printerJob.fields, "progress", EmptyObj).Obj?
    ensures r.Ok? ==> r.value.Keys == {JobStateKey, JobErrorKey, FileNameKey, ProgressKey, PrintTimeKey, PrintTimeLeftKey}
    ensures r.Ok? ==> r.value[JobStateKey] == Field(printerJob.fields, "state", Null)
    ensures r.Ok? ==>
              var progress := Child(printerJob, "progress").fields;
              && r.value[JobErrorKey] == Field(printerJob.fields, "error", Null)
              && r.value[FileNameKey] == Field(Child(Child(printerJob, "job"), "file").fields, "name", Null)
              && r.value[ProgressKey] == Field(progress, "completion", Num(0.0))
              && r.value[PrintTimeKey] == Field(progress, "printTime", Num(0.0))
              && r.value[PrintTimeLeftKey] == Field(progress, "printTimeLeft", Num(0.0))
  {
    var body :- AsObj(printerJob);
    var jobObj :- AsObj(Field(body, "job", EmptyObj));
    var fileObj :- AsObj(Field(jobObj, "file", EmptyObj));
    var progressObj :- AsObj(Field(body, "progress", EmptyObj));
    Ok(JobRecord(body, fileObj, progressObj))
  }

  /** The `/api/job` record once every nested object is a dictionary. */
  function JobRecord(body: map<string, Value>, fileObj: map<string, Value>, progressObj: map<string, Value>)
    : (r: map<string, Value>)
    ensures r.Keys == {JobStateKey, JobErrorKey, FileNameKey, ProgressKey, PrintTimeKey, PrintTimeLeftKey}
    ensures r[JobStateKey] == Field(body, "state", Null)
    ensures r[JobErrorKey] == Field(body, "error", Null)
    ensures r[FileNameKey] == Field(fileObj, "name", Null)
    ensures r[ProgressKey] == Field(progressObj, "completion", Num(0.0))
    ensures r[PrintTimeKey] == Field(progressObj, "printTime", Num(0.0))
    ensures r[PrintTimeLeftKey] == Field(progressObj, "printTimeLeft", Num(0.0))
  {
    KeyShapes();
    map[JobStateKey := Field(body, "state", Null), JobErrorKey := Field(body, "error", Null),
        FileNameKey := Field(fileObj, "name", Null),
        ProgressKey := Field(progressObj, "completion", Num(0.0)),
        PrintTimeKey := Field(progressObj, "printTime", Num(0.0)),
        PrintTimeLeftKey := Field(progressObj, "printTimeLeft", Num(0.0))]
  }

  /** The OctoPrint candidate: both halves, or `Raised` if either raises. */
  function OctoPrintCandidate(printerInfo: Value, printerJob: Value): (r: Result<map<string, Value>>)
    ensures r.Ok? <==> OctoPrintPrinterFields(printerInfo).Ok? && OctoPrintJobFields(printerJob).Ok?
    ensures r.Ok? ==> r.value == OctoPrintPrinterFields(printerInfo).value + OctoPrintJobFields(printerJob).value
    ensures r.Ok? ==> r.value.Keys == OctoPrintKeys
  {
    var printerFields :- OctoPrintPrinterFields(printerInfo);
    var jobFields :- OctoPrintJobFields(printerJob);
    Ok(printerFields + jobFields)
  }

  /** An empty `/api/printer` answer gives status 'unknown' and 0.0 for
      every temperature. */
  lemma OctoPrintPrinterDefaults()
    ensures OctoPrintPrinterFields(EmptyObj).Ok?
    ensures var c := OctoPrintPrinterFields(EmptyObj).value;
            c[StatusKey] == Str("unknown") && c[BedTemperature] == Num(0.0)
            && c[NozzleTemperature] == Num(0.0)
  {
    EmptyPrinterRecord();
    KeyShapes();
  }

  lemma EmptyPrinterRecord()
    ensures OctoPrintPrinterFields(EmptyObj)
            == Ok(map[StatusKey := Str("unknown"), BedTemperature := Num(0.0), NozzleTemperature := Num(0.0),
                      BedTargetKey := Num(0.0), NozzleTargetKey := Num(0.0)])
  {
    LowerKeepsLowerText("unknown");
    assert OctoPrintStatus(map[]) == Ok("unknown");
  }

  /** An empty `/api/job` answer gives None for the job state, error and
      file name and 0.0 for completion and the two times. */
  lemma OctoPrintJobDefaults()
    ensures OctoPrintJobFields(EmptyObj).Ok?
    ensures var c := OctoPrintJobFields(EmptyObj).value;
            c[JobStateKey] == Null && c[JobErrorKey] == Null && c[FileNameKey] == Null
            && c[ProgressKey] == Num(0.0) && c[PrintTimeLeftKey] == Num(0.0)
  {
  }

  // ---------------------------------------------------------------------
  // Reconcile

  /** The candidate fields whose change the filter calls significant; the
      stored side is `self.updates.get(key)`, None when absent. */
  function SignificantKeys(updates: map<string, Value>, candidate: map<string, Value>): (ks: set<string>)
    ensures ks <= candidate.Keys
    ensures forall k :: k in candidate ==>
              (k in ks <==> HasSignificantDifference(k, Lookup(updates, k), candidate[k]))
  {
    set k | k in candidate && HasSignificantDifference(k, Lookup(updates, k), candidate[k])
  }

  /** `updates` with the fields in `keys` taken from `candidate`. */
  function Overwrite(updates: map<string, Value>, candidate: map<string, Value>, keys: set<string>)
    : (r: map<string, Value>)
    requires keys <= candidate.Keys
    ensures r.Keys == updates.Keys + keys
    ensures forall k :: k in keys ==> r[k] == candidate[k]
    ensures forall k :: k in updates && k !in keys ==> r[k] == updates[k]
  {
    map k | k in updates.Keys + keys :: if k in keys then candidate[k] else updates[k]
  }

  /** The snapshot after a reconcile step: exactly the significant fields
      take the candidate's value, every other field keeps its own. */
  function Reconciled(updates: map<string, Value>, candidate: map<string, Value>): (r: map<string, Value>)
    ensures r.Keys == updates.Keys + SignificantKeys(updates, candidate)
    ensures forall k :: k in candidate ==>
              Lookup(r, k) == if HasSignificantDifference(k, Lookup(updates, k), candidate[k])
                              then candidate[k] else Lookup(updates, k)
    ensures forall k :: k in updates && k !in candidate ==> r[k] == updates[k]
  {
    Overwrite(updates, candidate, SignificantKeys(updates, candidate))
  }

  /** A second reconcile against the same candidate finds nothing to change:
      the snapshot is a fixed point and the dirty flag would not be set. */
  lemma {:induction false} ReconcileIdempotent(updates: map<string, Value>, candidate: map<string, Value>)
    ensures SignificantKeys(Reconciled(updates, candidate), candidate) == {}
    ensures Reconciled(Reconciled(updates, candidate), candidate) == Reconciled(updates, candidate)
  {
    var r := Reconciled(updates, candidate);
    var sig := SignificantKeys(updates, candidate);
    forall k | k in candidate
      ensures !HasSignificantDifference(k, Lookup(r, k), candidate[k])
    {
      if k in sig {
        NotSignificantWhenEqual(k, candidate[k]);
      } else {
        assert Lookup(r, k) == Lookup(updates, k);
      }
    }
    assert SignificantKeys(r, candidate) == {};
    assert Overwrite(r, candidate, {}) == r;
  }

  /** After a reconcile step every temperature the candidate reports
      numerically is within 0.7 of the stored one (when that is numeric). */
  lemma {:induction false} ReconciledTemperatureClose(updates: map<string, Value>, candidate: map<string, Value>, key: string)
    requires key == BedTemperature || key == NozzleTemperature
    requires key in candidate && candidate[key].Num?
    requires Lookup(Reconciled(updates, candidate), key).Num?
    ensures var stored := Lookup(Reconciled(updates, candidate), key).r;
            Abs(candidate[key].r - stored) < 0.7
  {
    ReconcileIdempotent(updates, candidate);
    assert key !in SignificantKeys(Reconciled(updates, candidate), candidate);
  }

  /** The worked example of the filter: with 200.0 stored, a reading of
      200.3 changes nothing; a reading of 201.0 replaces it and counts as a
      change. */
  lemma NozzleScenario(updates: map<string, Value>)
    requires NozzleTemperature in updates && updates[NozzleTemperature] == Num(200.0)
    ensures SignificantKeys(updates, map[NozzleTemperature := Num(200.3)]) == {}
    ensures Reconciled(updates, map[NozzleTemperature := Num(200.3)]) == updates
    ensures SignificantKeys(updates, map[NozzleTemperature := Num(201.0)]) == {NozzleTemperature}
    ensures Reconciled(updates, map[NozzleTemperature := Num(201.0)])
            == updates[NozzleTemperature := Num(201.0)]
  {
    var small := map[NozzleTemperature := Num(200.3)];
    assert !HasSignificantDifference(NozzleTemperature, Num(200.0), Num(200.3));
    assert SignificantKeys(updates, small) == {};
    assert Overwrite(updates, small, {}) == updates;
    var large := map[NozzleTemperature := Num(201.0)];
    assert HasSignificantDifference(NozzleTemperature, Num(200.0), Num(201.0));
    assert SignificantKeys(updates, large) == {NozzleTemperature};
  }
}
