/**
  The bridge object (`BatchPrinterConnect`, and the `parent` the printer
  drivers write into): the telemetry snapshot, its dirty flag, the upload
  progress, the remote connection and the frames sent on it.

  Each loop body of the source (one poll of the printer host, one pass of
  the push task, one connection of the remote task) is one method. Every
  method is specified by a function on `BridgeState`, the value of the
  object's fields, and the promises of the source are lemmas about those
  functions.
 */
module Bridge {
  import opened Values
  import opened Helpers
  import opened Telemetry

  /** A frame sent on the remote WebSocket. */
  datatype Frame =
    | Auth(uuid: string)
    | PrinterUpdate(content: map<string, Value>)
    | PrinterReady
    | PrinterAlive

  /** The answer to one HTTP request to the printer host: a decoded body, an
      error status raised by `raise_for_status`, an answer with status `code`
      whose body is not declared as JSON, or no usable answer at all
      (connection error, timeout, malformed JSON). `requests` rejects a
      `NotJson` body with a decoding error, which is no `HTTPError`; aiohttp
      rejects it with `ContentTypeError`, a `ClientResponseError` that
      carries the answer's status. */
  datatype Response = Body(json: Value) | HttpError(code: int) | NotJson(code: int) | Unreachable

  /** What one poll of the printer host produced before the bridge reacts to
      it: a candidate record, a 409 conflict, another HTTP error, or any
      other exception. */
  datatype Outcome = Candidate(fields: map<string, Value>) | Conflict | HttpFailure | Failure

  /** The four pollers: the two stand-alone scripts and the two drivers. */
  datatype Host = OctoPrintScript | MoonrakerScript | OctoPrintDriver | KlipperDriver
  {
    predicate IsOctoPrint() { this == OctoPrintScript || this == OctoPrintDriver }
  }

  /** How long the poll loop waits before the next poll: the configured
      `reconnect_interval`, or the fixed 10 s back-off after a conflict. */
  datatype Next = Regular | Backoff

  /** The fields of the bridge object that the core reads and writes;
      `lastSent` is the push task's `last_sent_time`. */
  datatype BridgeState = BridgeState(
    updates: map<string, Value>,
    dirty: bool,
    status: Value,
    uploading: Value,
    connected: bool,
    lastSent: int,
    outbox: seq<Frame>)

  /** The result of one poll: the new state, the wait that follows, and
      whether `reconnect_printer` was called. */
  datatype PollResult = PollResult(state: BridgeState, next: Next, reconnect: bool)

  const ErrorStatus: Value := Str("error")
  const PushInterval: int := 120

  // ---------------------------------------------------------------------
  // Polling the printer host

  /** The two-request OctoPrint poll: `/api/printer`, then `/api/job`. The
      job request is only made once the printer half has been read. */
  function OctoPrintOutcome(printer: Response, job: Response): (r: Outcome)
    ensures printer.HttpError? ==> r == (if printer.code == 409 then Conflict else HttpFailure)
    ensures printer.Unreachable? || printer.NotJson? ==> r == Failure
    ensures printer.Body? && OctoPrintPrinterFields(printer.json).Raised? ==> r == Failure
    ensures printer.Body? && OctoPrintPrinterFields(printer.json).Ok? ==>
              (job.HttpError? ==> r == (if job.code == 409 then Conflict else HttpFailure))
              && (job.Unreachable? || job.NotJson? ==> r == Failure)
              && (job.Body? && OctoPrintJobFields(job.json).Raised? ==> r == Failure)
    ensures r.Candidate? <==> (printer.Body? && job.Body?
                               && OctoPrintCandidate(printer.json, job.json).Ok?)
    ensures r.Candidate? ==> r.fields == OctoPrintCandidate(printer.json, job.json).value
  {
    match printer
    case HttpError(code) => if code == 409 then Conflict else HttpFailure
    case NotJson(_) => Failure
    case Unreachable => Failure
    case Body(info) =>
      match OctoPrintPrinterFields(info)
      case Raised => Failure
      case Ok(printerFields) =>
        match job
        case HttpError(code) => if code == 409 then Conflict else HttpFailure
        case NotJson(_) => Failure
        case Unreachable => Failure
        case Body(j) =>
          match OctoPrintJobFields(j)
          case Raised => Failure
          case Ok(jobFields) => Candidate(printerFields + jobFields)
  }

  /** The one-request Moonraker poll (`/printer/objects/query`), by the
      script (`requests`) or by the Klipper driver (aiohttp). */
  function MoonrakerOutcome(host: Host, query: Response): (r: Outcome)
    requires !host.IsOctoPrint()
    ensures query.HttpError? ==> r == (if query.code == 409 then Conflict else HttpFailure)
    ensures query.NotJson? && host == MoonrakerScript ==> r == Failure
    ensures query.NotJson? && host == KlipperDriver
            ==> r == (if query.code == 409 then Conflict else HttpFailure)
    ensures query.Unreachable? ==> r == Failure
    ensures query.Body? && MoonrakerCandidate(query.json).Raised? ==> r == Failure
    ensures r.Candidate? <==> query.Body? && MoonrakerCandidate(query.json).Ok?
    ensures r.Candidate? ==> r.fields == MoonrakerCandidate(query.json).value
  {
    match query
    case HttpError(code) => if code == 409 then Conflict else HttpFailure
    case NotJson(code) =>
      if host == KlipperDriver then (if code == 409 then Conflict else HttpFailure)
      else Failure
    case Unreachable => Failure
    case Body(data) =>
      match MoonrakerCandidate(data)
      case Raised => Failure
      case Ok(candidate) => Candidate(candidate)
  }

  /** The reconcile step on the whole state: significant fields overwritten,
      dirty set if there were any. */
  function ReconcileState(s: BridgeState, candidate: map<string, Value>): (r: BridgeState)
    ensures r.updates == Reconciled(s.updates, candidate)
    ensures r.dirty <==> s.dirty || r.updates != s.updates
    ensures r.status == s.status && r.uploading == s.uploading && r.connected == s.connected
            && r.lastSent == s.lastSent && r.outbox == s.outbox
  {
    s.(updates := Reconciled(s.updates, candidate),
       dirty := s.dirty || SignificantKeys(s.updates, candidate) != {})
  }

  /** Status 'error' in the snapshot, and the dirty flag set. */
  function MarkError(s: BridgeState): (r: BridgeState)
    ensures Lookup(r.updates, StatusKey) == ErrorStatus && r.dirty
    ensures r.updates.Keys == s.updates.Keys + {StatusKey}
    ensures forall k :: k in s.updates && k != StatusKey ==> r.updates[k] == s.updates[k]
    ensures r.status == s.status && r.uploading == s.uploading && r.connected == s.connected
            && r.lastSent == s.lastSent && r.outbox == s.outbox
  {
    s.(updates := s.updates[StatusKey := ErrorStatus], dirty := true)
  }

  /** How a host reacts to one poll outcome: a candidate is reconciled; a 409
      marks the status 'error', sets dirty and backs off, with a printer
      reconnect on every host but the Moonraker script; another HTTP error
      is only logged; any other exception is only logged on the OctoPrint
      hosts and marks the status 'error' on the Moonraker hosts. */
  function PollStep(host: Host, s: BridgeState, outcome: Outcome): (r: PollResult)
    ensures r.next == Backoff <==> outcome.Conflict?
    ensures r.reconnect ==> outcome.Conflict?
    ensures r.state.outbox == s.outbox && r.state.connected == s.connected
            && r.state.uploading == s.uploading && r.state.lastSent == s.lastSent
    ensures outcome.HttpFailure? ==> r.state == s
  {
    match outcome
    case Candidate(c) => PollResult(ReconcileState(s, c), Regular, false)
    case Conflict => PollResult(MarkError(s), Backoff, host != MoonrakerScript)
    case HttpFailure => PollResult(s, Regular, false)
    case Failure => PollResult(if host.IsOctoPrint() then s else MarkError(s), Regular, false)
  }

  /** A field of the snapshot changes in a reconcile step exactly when the
      candidate carries it and the filter calls the change significant; the
      dirty flag is then set exactly when some field changed. */
  lemma ReconcileOverwritesOnlySignificant(s: BridgeState, candidate: map<string, Value>, key: string)
    ensures var r := ReconcileState(s, candidate);
            Lookup(r.updates, key)
            == if key in candidate && HasSignificantDifference(key, Lookup(s.updates, key), candidate[key])
               then candidate[key] else Lookup(s.updates, key)
    ensures ReconcileState(s, candidate).dirty
            <==> s.dirty || exists k :: k in candidate && HasSignificantDifference(k, Lookup(s.updates, k), candidate[k])
  {
    var sig := SignificantKeys(s.updates, candidate);
    if sig != {} {
      var k :| k in sig;
      assert k in candidate && HasSignificantDifference(k, Lookup(s.updates, k), candidate[k]);
    }
  }

  /** The reconcile step only touches the candidate's fields and the dirty
      flag, and never clears the flag. */
  lemma ReconcileKeepsTheRest(s: BridgeState, candidate: map<string, Value>)
    ensures var r := ReconcileState(s, candidate);
            r.status == s.status && r.uploading == s.uploading && r.connected == s.connected
            && r.lastSent == s.lastSent && r.outbox == s.outbox
            && (s.dirty ==> r.dirty)
            && forall k :: k in s.updates && k !in candidate ==> r.updates[k] == s.updates[k]
  {
  }

  /** A 409 on any host: status 'error', dirty set, the 10 s back-off, and a
      printer reconnect everywhere except in the Moonraker script; no other
      field moves. */
  lemma ConflictReaction(host: Host, s: BridgeState)
    ensures var r := PollStep(host, s, Conflict);
            r.state.updates == s.updates[StatusKey := Str("error")] && r.state.dirty
            && r.next == Backoff && (r.reconnect <==> host != MoonrakerScript)
            && r.state.outbox == s.outbox && r.state.uploading == s.uploading
  {
  }

  /** On the OctoPrint hosts every error other than a 409 leaves the state
      as it was; on the Moonraker hosts an HTTP error does, while any other
      exception marks the status 'error' and sets dirty. */
  lemma ErrorReactions(host: Host, s: BridgeState)
    ensures PollStep(host, s, HttpFailure) == PollResult(s, Regular, false)
    ensures host.IsOctoPrint() ==> PollStep(host, s, Failure) == PollResult(s, Regular, false)
    ensures !host.IsOctoPrint() ==>
              PollStep(host, s, Failure).state.updates == s.updates[StatusKey := Str("error")]
              && PollStep(host, s, Failure).state.dirty
  {
  }

  /** A success answer whose body is not declared as JSON: the Moonraker
      script treats it as any other exception and marks the status 'error',
      while the Klipper driver only logs it as an HTTP error and leaves the
      state as it was. */
  lemma NonJsonAnswer(s: BridgeState, code: int)
    requires 200 <= code < 300
    ensures PollStep(MoonrakerScript, s, MoonrakerOutcome(MoonrakerScript, NotJson(code))).state
            == MarkError(s)
    ensures PollStep(KlipperDriver, s, MoonrakerOutcome(KlipperDriver, NotJson(code)))
            == PollResult(s, Regular, false)
  {
  }

  /** Polling an unchanged printer twice in a row: the second poll changes
      nothing, so it cannot be what sets the dirty flag. */
  lemma {:induction false} RepeatedPollIsStable(host: Host, s: BridgeState, outcome: Outcome)
    requires outcome.Candidate?
    ensures var s1 := PollStep(host, s, outcome).state;
            PollStep(host, s1, outcome).state == s1
  {
    var c := outcome.fields;
    ReconcileIdempotent(s.updates, c);
  }

  /** The poll step of the two drivers as written: they call the shared
      `has_significant_difference` with three arguments although it takes
      four, so the first field of every candidate raises a TypeError, which
      the generic handler catches. The reconcile step never runs. */
  function PollStepAsWritten(host: Host, s: BridgeState, outcome: Outcome): (r: PollResult)
    ensures host == OctoPrintScript || host == MoonrakerScript ==> r == PollStep(host, s, outcome)
    ensures host == OctoPrintDriver && outcome.Candidate? ==> r.state == s
    ensures host == KlipperDriver && outcome.Candidate? && outcome.fields != map[]
            ==> r.state == MarkError(s)
  {
    if (host == OctoPrintDriver || host == KlipperDriver) && outcome.Candidate? && outcome.fields != map[]
    then PollStep(host, s, Failure)
    else PollStep(host, s, outcome)
  }

  /** A printer reported as standby ('operational'): as written, the Klipper
      driver turns every successful poll into status 'error' and the
      OctoPrint driver never stores anything. */
  lemma DriverPollAsWritten(s: BridgeState, c: map<string, Value>)
    requires StatusKey in c && c[StatusKey] == Str("operational")
    ensures PollStepAsWritten(KlipperDriver, s, Candidate(c)).state.updates[StatusKey] == ErrorStatus
    ensures PollStepAsWritten(OctoPrintDriver, s, Candidate(c)).state == s
  {
    assert c != map[];
  }

  /** The corrected step on the same poll: both drivers report the printer
      as operational. */
  lemma StandbyPollReported(s: BridgeState, c: map<string, Value>)
    requires StatusKey in c && c[StatusKey] == Str("operational")
    ensures Lookup(PollStep(KlipperDriver, s, Candidate(c)).state.updates, StatusKey) == Str("operational")
    ensures Lookup(PollStep(OctoPrintDriver, s, Candidate(c)).state.updates, StatusKey) == Str("operational")
  {
    ReconcileOverwritesOnlySignificant(s, c, StatusKey);
    assert StatusKey != BedTemperature && StatusKey != NozzleTemperature;
    OtherKeysUseInequality(StatusKey, Lookup(s.updates, StatusKey), c[StatusKey]);
  }

  /** Away from the two drivers and from non-empty candidates, the step as
      written is the corrected one. */
  lemma PollStepAsWrittenElsewhere(host: Host, s: BridgeState, outcome: Outcome)
    requires !(host == OctoPrintDriver || host == KlipperDriver) || !outcome.Candidate?
    ensures PollStepAsWritten(host, s, outcome) == PollStep(host, s, outcome)
  {
  }

  // ---------------------------------------------------------------------
  // The remote connection

  /** `initialUpdatesValues`: a fresh snapshot and the dirty flag set. */
  function ResetState(s: BridgeState): (r: BridgeState)
    ensures r.updates.Keys == SnapshotKeys && r.updates[StatusKey] == s.status && r.dirty
    ensures r.status == s.status && r.uploading == s.uploading && r.connected == s.connected
            && r.lastSent == s.lastSent && r.outbox == s.outbox
  {
    s.(updates := InitialUpdates(s.status), dirty := true)
  }

  /** A successful connect: the socket becomes current, the `auth` frame
      carrying the bridge's UUID goes out, and the snapshot is reset. */
  function ConnectState(s: BridgeState, uuid: string): (r: BridgeState)
    ensures r.connected && r.outbox == s.outbox + [Auth(uuid)]
    ensures r.updates == InitialUpdates(s.status) && r.dirty
    ensures r.status == s.status && r.uploading == s.uploading && r.lastSent == s.lastSent
  {
    ResetState(s.(connected := true, outbox := s.outbox + [Auth(uuid)]))
  }

  /** The end of a connection, however it ended: `remote_websocket` is None. */
  function DisconnectState(s: BridgeState): (r: BridgeState)
    ensures !r.connected && r == s.(connected := false)
  {
    s.(connected := false)
  }

  const UnresponsiveStatus: Value := Str("Unresponsive")

  /** What `reboot_system` does to the bridge before the shell command: the
      bridge's own status and the reported one become 'Unresponsive' and
      the snapshot is marked dirty. */
  function RebootState(s: BridgeState): (r: BridgeState)
    ensures r.status == UnresponsiveStatus && Lookup(r.updates, StatusKey) == UnresponsiveStatus && r.dirty
    ensures r.updates.Keys == s.updates.Keys + {StatusKey}
    ensures forall k :: k in s.updates && k != StatusKey ==> r.updates[k] == s.updates[k]
    ensures r.uploading == s.uploading && r.connected == s.connected
            && r.lastSent == s.lastSent && r.outbox == s.outbox
  {
    s.(status := UnresponsiveStatus, updates := s.updates[StatusKey := UnresponsiveStatus], dirty := true)
  }

  /** Unlike a poll error, a reboot changes the bridge's own status, so the
      snapshot of every later reset or connect reports 'Unresponsive' until
      a poll says otherwise; a poll error leaves the status a reset restores. */
  lemma RebootOutlivesReset(s: BridgeState, uuid: string)
    ensures ResetState(RebootState(s)).updates[StatusKey] == UnresponsiveStatus
    ensures ConnectState(RebootState(s), uuid).updates[StatusKey] == UnresponsiveStatus
    ensures ResetState(MarkError(s)).updates[StatusKey] == s.status
  {
  }

  /** After a reset every field but `status` and the nested `print_stats`
      record is None, the status is the bridge's last known status, and the
      snapshot is dirty and reportable. */
  lemma ResetClearsSnapshot(s: BridgeState)
    ensures var r := ResetState(s);
            r.dirty && r.updates[StatusKey] == s.status && r.updates[PrintStatsKey] == EmptyPrintStats
            && (forall k :: k in r.updates && k != StatusKey && k != PrintStatsKey ==> r.updates[k] == Null)
            && AnyNonNull(r.updates)
  {
    ResetSnapshotIsReportable(s.status);
  }

  // ---------------------------------------------------------------------
  // Pushing telemetry

  /** The push gate: a connection, some non-None field, and either a change
      since the last push or `PushInterval` seconds of silence. */
  predicate ShouldPush(s: BridgeState, now: int)
    ensures ShouldPush(s, now) ==> s.connected && AnyNonNull(s.updates)
    ensures s.connected && AnyNonNull(s.updates) && now - s.lastSent >= PushInterval ==> ShouldPush(s, now)
  {
    s.connected && AnyNonNull(s.updates) && (s.dirty || now - s.lastSent >= PushInterval)
  }

  /** One pass of the push task at time `now`; `sendOk` is false when the
      socket turns out to be closed during the send. The frame is built
      from the snapshot first; `cancelled` is then cleared and the upload
      progress copied in, whether or not the send succeeds. */
  function PushState(s: BridgeState, now: int, sendOk: bool): (r: BridgeState)
    ensures r.outbox != s.outbox <==> ShouldPush(s, now) && sendOk
    ensures r.outbox != s.outbox ==>
              r.outbox == s.outbox + [PrinterUpdate(s.updates)] && !r.dirty && r.lastSent == now
    ensures ShouldPush(s, now) ==> Lookup(r.updates, CancelledKey) == Null
                                   && Lookup(r.updates, UploadProgressKey) == s.uploading
    ensures ShouldPush(s, now) && !sendOk ==> !r.connected && r.dirty == s.dirty
    ensures !ShouldPush(s, now) ==> r == s
    ensures r.status == s.status && r.uploading == s.uploading
  {
    if !ShouldPush(s, now) then s
    else
      var cleared := s.updates[CancelledKey := Null][UploadProgressKey := s.uploading];
      if sendOk then
        s.(updates := cleared, dirty := false, lastSent := now,
           outbox := s.outbox + [PrinterUpdate(s.updates)])
      else
        s.(updates := cleared, connected := false)
  }

  /** A frame goes out exactly when the gate is open and the send succeeds,
      and it carries the snapshot as it was before the pass. */
  lemma PushSendsIffGateOpen(s: BridgeState, now: int, sendOk: bool)
    ensures var r := PushState(s, now, sendOk);
            (|r.outbox| == |s.outbox| + 1 <==> ShouldPush(s, now) && sendOk)
            && (|r.outbox| != |s.outbox| + 1 ==> r.outbox == s.outbox)
            && (|r.outbox| == |s.outbox| + 1 ==> r.outbox == s.outbox + [PrinterUpdate(s.updates)])
  {
  }

  /** After a successful push the snapshot is clean, the timer restarts,
      `cancelled` is None and the upload progress is the bridge's current
      one; with the same snapshot the gate then stays shut for the next
      `PushInterval` seconds. */
  lemma PushResetsGate(s: BridgeState, now: int, later: int)
    requires ShouldPush(s, now)
    requires now <= later < now + PushInterval
    ensures var r := PushState(s, now, true);
            !r.dirty && r.lastSent == now && r.updates[CancelledKey] == Null
            && r.updates[UploadProgressKey] == s.uploading
            && !ShouldPush(r, later) && PushState(r, later, true) == r
  {
  }

  /** The upload progress in a frame lags one push behind: with the
      progress moving from `s.uploading` to `p1` between two pushes, the
      second frame still reports `s.uploading`, and only the snapshot after
      it holds `p1`. */
  lemma UploadProgressLagsOneFrame(s: BridgeState, t0: int, p1: Value, t1: int)
    requires ShouldPush(s, t0)
    requires exists k :: k in s.updates && k != CancelledKey && k != UploadProgressKey && s.updates[k] != Null
    ensures var s1 := PushState(s, t0, true);
            var s2 := PushState(s1.(uploading := p1, dirty := true), t1, true);
            s2.outbox == s.outbox + [PrinterUpdate(s.updates), PrinterUpdate(s1.updates)]
            && s1.updates[UploadProgressKey] == s.uploading
            && s2.updates[UploadProgressKey] == p1
  {
    var s1 := PushState(s, t0, true);
    var k :| k in s.updates && k != CancelledKey && k != UploadProgressKey && s.updates[k] != Null;
    assert s1.updates[k] != Null;
    assert ShouldPush(s1.(uploading := p1, dirty := true), t1);
  }

  /** A latched cancellation is reported in exactly one frame: the push that
      carries it clears it, and a later reconcile (whose candidates never
      carry `cancelled`) does not bring it back. */
  lemma CancellationReportedOnce(s: BridgeState, t0: int, candidate: map<string, Value>, t1: int)
    requires ShouldPush(s, t0) && CancelledKey in s.updates
    requires CancelledKey !in candidate
    ensures var s1 := PushState(s, t0, true);
            var s2 := ReconcileState(s1, candidate);
            var s3 := PushState(s2, t1, true);
            s1.outbox[|s1.outbox| - 1] == PrinterUpdate(s.updates)
            && s2.updates[CancelledKey] == Null
            && (|s3.outbox| > |s2.outbox| ==> s3.outbox[|s3.outbox| - 1].content[CancelledKey] == Null)
  {
  }

  /** The first pass of the push task after a connect always sends, and it
      sends the freshly reset snapshot right after the `auth` frame. */
  lemma FirstPushAfterConnect(s: BridgeState, uuid: string, now: int)
    ensures var r := PushState(ConnectState(s, uuid), now, true);
            r.outbox == s.outbox + [Auth(uuid), PrinterUpdate(InitialUpdates(s.status))]
  {
    ResetSnapshotIsReportable(s.status);
    assert ShouldPush(ConnectState(s, uuid), now);
  }

  /** `send_printer_alive`: an alive frame when connected; a closed socket
      drops the connection. */
  function AliveState(s: BridgeState, sendOk: bool): (r: BridgeState)
    ensures r.outbox != s.outbox <==> s.connected && sendOk
    ensures r.outbox != s.outbox ==> r.outbox == s.outbox + [PrinterAlive]
    ensures r.connected <==> s.connected && sendOk
    ensures r.updates == s.updates && r.dirty == s.dirty && r.status == s.status
  {
    if !s.connected then s
    else if sendOk then s.(outbox := s.outbox + [PrinterAlive])
    else s.(connected := false)
  }

  /** `send_printer_ready`: a ready frame when connected; a failed send is
      only logged. */
  function ReadyState(s: BridgeState, sendOk: bool): (r: BridgeState)
    ensures r.outbox != s.outbox <==> s.connected && sendOk
    ensures r.outbox != s.outbox ==> r.outbox == s.outbox + [PrinterReady]
    ensures r.connected == s.connected && r.updates == s.updates && r.dirty == s.dirty
  {
    if s.connected && sendOk then s.(outbox := s.outbox + [PrinterReady]) else s
  }

  /** Neither heartbeat touches the snapshot; a ready frame is sent only on
      a live connection. */
  lemma HeartbeatsLeaveSnapshot(s: BridgeState, sendOk: bool)
    ensures AliveState(s, sendOk).updates == s.updates && ReadyState(s, sendOk).updates == s.updates
    ensures ReadyState(s, sendOk).outbox != s.outbox <==> s.connected && sendOk
    ensures !s.connected ==> AliveState(s, sendOk) == s
  {
  }

  /** One more field taken from the candidate. */
  lemma OverwriteOneMore(u: map<string, Value>, c: map<string, Value>, keys: set<string>, key: string)
    requires keys <= c.Keys && key in c
    ensures Overwrite(u, c, keys)[key := c[key]] == Overwrite(u, c, keys + {key})
  {
  }

  /** One pass of the reconcile loop, on the specification side: the key
      not yet visited still holds its stored value, and it joins the
      overwritten set exactly when its change is significant. */
  lemma ReconcileOneKey(u: map<string, Value>, c: map<string, Value>, sig: set<string>, done: set<string>, key: string)
    requires sig == SignificantKeys(u, c) && done <= c.Keys && key in c && key !in done
    ensures Lookup(Overwrite(u, c, sig * done), key) == Lookup(u, key)
    ensures HasSignificantDifference(key, Lookup(u, key), c[key]) ==>
              Overwrite(u, c, sig * done)[key := c[key]] == Overwrite(u, c, sig * (done + {key}))
              && sig * (done + {key}) == sig * done + {key}
    ensures !HasSignificantDifference(key, Lookup(u, key), c[key]) ==> sig * (done + {key}) == sig * done
  {
    if HasSignificantDifference(key, Lookup(u, key), c[key]) {
      OverwriteOneMore(u, c, sig * done, key);
      assert sig * (done + {key}) == sig * done + {key};
    } else {
      assert sig * (done + {key}) == sig * done;
    }
  }

  // ---------------------------------------------------------------------
  // The object

  class Bridge {
    var updates: map<string, Value>
    var dirty: bool
    var status: Value
    var uploading: Value
    var connected: bool
    var lastSent: int
    var outbox: seq<Frame>

    function State(): BridgeState
      reads this
    {
      BridgeState(updates, dirty, status, uploading, connected, lastSent, outbox)
    }

    /** A new bridge: the status read at start-up, a fresh snapshot, no
        connection yet, and the push timer started at `start`. */
    constructor(initialStatus: Value, start: int)
      ensures State() == BridgeState(InitialUpdates(initialStatus), true, initialStatus, Null, false, start, [])
    {
      status := initialStatus;
      updates := InitialUpdates(initialStatus);
      dirty := true;
      uploading := Null;
      connected := false;
      lastSent := start;
      outbox := [];
    }

    method Reset()
      modifies this
      ensures State() == ResetState(old(State()))
    {
      updates := InitialUpdates(status);
      dirty := true;
    }

    method Connect(uuid: string)
      modifies this
      ensures State() == ConnectState(old(State()), uuid)
    {
      connected := true;
      outbox := outbox + [Auth(uuid)];
      Reset();
    }

    method Disconnect()
      modifies this
      ensures State() == DisconnectState(old(State()))
    {
      connected := false;
    }

    /** The state changes of `reboot_system`; the wait and the shell
        command that follow are outside the model. */
    method Reboot()
      modifies this
      ensures State() == RebootState(old(State()))
    {
      status := UnresponsiveStatus;
      updates := updates[StatusKey := UnresponsiveStatus];
      dirty := true;
    }

    /** The reconcile loop: each candidate field is compared with the
        stored one and overwritten when the change is significant. */
    method Reconcile(candidate: map<string, Value>)
      modifies this
      ensures State() == ReconcileState(old(State()), candidate)
    {
      ghost var sig := SignificantKeys(updates, candidate);
      ghost var done: set<string> := {};
      var todo := candidate.Keys;
      var updateNeeded := false;
      while todo != {}
        invariant todo !! done && todo + done == candidate.Keys
        invariant updates == Overwrite(old(updates), candidate, sig * done)
        invariant updateNeeded <==> sig * done != {}
        invariant State() == old(State()).(updates := updates)
        decreases todo
      {
        var key :| key in todo;
        ReconcileOneKey(old(updates), candidate, sig, done, key);
        if HasSignificantDifference(key, Lookup(updates, key), candidate[key]) {
          updates := updates[key := candidate[key]];
          updateNeeded := true;
        }
        todo := todo - {key};
        done := done + {key};
      }
      assert sig * done == sig;
      if updateNeeded {
        dirty := true;
      }
    }

    /** One pass of the poll loop on `host`. */
    method Poll(host: Host, outcome: Outcome) returns (next: Next, reconnect: bool)
      modifies this
      ensures PollResult(State(), next, reconnect) == PollStep(host, old(State()), outcome)
    {
      next := Regular;
      reconnect := false;
      match outcome {
        case Candidate(c) =>
          Reconcile(c);
        case Conflict =>
          updates := updates[StatusKey := ErrorStatus];
          dirty := true;
          reconnect := host != MoonrakerScript;
          next := Backoff;
        case HttpFailure =>
        case Failure =>
          if !host.IsOctoPrint() {
            updates := updates[StatusKey := ErrorStatus];
            dirty := true;
          }
      }
    }

    /** One pass of the push task; `sent` says whether a frame went out. */
    method PushUpdate(now: int, sendOk: bool) returns (sent: bool)
      modifies this
      ensures State() == PushState(old(State()), now, sendOk)
      ensures sent <==> ShouldPush(old(State()), now) && sendOk
    {
      sent := false;
      if connected && AnyNonNull(updates) && (dirty || now - lastSent >= PushInterval) {
        var frame := PrinterUpdate(updates);
        updates := updates[CancelledKey := Null][UploadProgressKey := uploading];
        if sendOk {
          outbox := outbox + [frame];
          dirty := false;
          lastSent := now;
          sent := true;
        } else {
          connected := false;
        }
      }
    }

    method PushAlive(sendOk: bool)
      modifies this
      ensures State() == AliveState(old(State()), sendOk)
    {
      if connected {
        if sendOk {
          outbox := outbox + [PrinterAlive];
        } else {
          connected := false;
        }
      }
    }

    method SendReady(sendOk: bool)
      modifies this
      ensures State() == ReadyState(old(State()), sendOk)
    {
      if connected && sendOk {
        outbox := outbox + [PrinterReady];
      }
    }
  }
}
