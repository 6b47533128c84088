/**
  The single-file Moonraker prototype (`ws-simple.py`): its six-field
  snapshot, the start-up probe of the printer's state, the fold of a
  `notify_status_update` parameter list into the snapshot, and the push
  that reports the snapshot and clears the `cancelled` latch.
 */
module Prototype {
  import opened Values
  import opened Helpers
  import opened Telemetry

  // ---------------------------------------------------------------------
  // Snapshot and start-up

  /** The six fields of the prototype's snapshot. */
  const PrototypeKeys: set<string> :=
    {BedTemperature, NozzleTemperature, StatusKey, PrintStatsKey, CancelledKey, ProgressKey}

  /** The snapshot at start-up: every field None except the status and the
      nested `print_stats` record, which is present with its fields None. */
  function PrototypeSnapshot(status: Value): (u: map<string, Value>)
    ensures u.Keys == PrototypeKeys
    ensures u[StatusKey] == status && u[PrintStatsKey] == EmptyPrintStats
    ensures forall k :: k in u && k != StatusKey && k != PrintStatsKey ==> u[k] == Null
  {
    map[BedTemperature := Null, NozzleTemperature := Null, StatusKey := status,
        PrintStatsKey := EmptyPrintStats, CancelledKey := Null, ProgressKey := Null]
  }

  /** The start-up probe: `result.state` of the `/printer/info` answer.
      `body` is the parsed answer, or Raised when the request or the parse
      failed; a missing or non-object `result` raises as well. */
  function ProbeStatus(body: Result<Value>): (r: Result<Value>)
    ensures r.Ok? <==> body.Ok? && body.value.Obj? && Field(body.value.fields, "result", Null).Obj?
  {
    var answer :- body;
    var top :- AsObj(answer);
    var result :- AsObj(Field(top, "result", Null));
    Ok(Field(result, "state", Null))
  }

  /** The constructor as written: a failed probe is only reported, and the
      snapshot then names the never-assigned `status`, which raises. */
  function InitialSnapshotAsWritten(body: Result<Value>): (r: Result<map<string, Value>>)
    ensures r.Ok? <==> ProbeStatus(body).Ok?
  {
    var status :- ProbeStatus(body);
    Ok(PrototypeSnapshot(status))
  }

  /** The constructor as evidently intended: a failed probe sets the status
      to 'error', as both bridge scripts do, and the bridge starts anyway. */
  function InitialSnapshot(body: Result<Value>): (u: map<string, Value>)
    ensures u.Keys == PrototypeKeys && u[PrintStatsKey] == EmptyPrintStats
    ensures u[StatusKey] == if ProbeStatus(body).Ok? then ProbeStatus(body).value else Str("error")
  {
    PrototypeSnapshot(if ProbeStatus(body).Ok? then ProbeStatus(body).value else Str("error"))
  }

  /** Both constructors agree whenever the probe succeeds; when it fails the
      corrected one starts with status 'error' where the written one raises. */
  lemma ProbeOutcomes(body: Result<Value>)
    ensures ProbeStatus(body).Ok? ==> InitialSnapshotAsWritten(body) == Ok(InitialSnapshot(body))
    ensures ProbeStatus(body).Raised? ==>
              (InitialSnapshotAsWritten(body).Raised? && InitialSnapshot(body)[StatusKey] == Str("error")
               && InitialSnapshot(body).Keys == PrototypeKeys)
  {
  }

  /** A printer host that is down at start-up stops the prototype, and so
      does an answer without a `result` object. */
  lemma UnreachablePrinterAborts()
    ensures InitialSnapshotAsWritten(Raised).Raised?
    ensures InitialSnapshotAsWritten(Ok(Obj(map["error" := Str("busy")]))).Raised?
    ensures InitialSnapshot(Raised) == PrototypeSnapshot(Str("error"))
  {
    assert Field(map["error" := Str("busy")], "result", Null) == Null;
  }

  // ---------------------------------------------------------------------
  // decode_updates

  /** `x.get(key)` inside one of the `try` blocks: the value (None when the
      key is missing) if `x` is a dict, and None when the call raises. */
  function TryGet(x: Value, key: string): (r: Option<Value>)
    ensures r.Some? <==> x.Obj?
  {
    if x.Obj? then Some(Field(x.fields, key, Null)) else None
  }

  /** `param.get(outer).get(inner)`, or None when either call raises. */
  function Nested(param: Value, outer: string, inner: string): (r: Option<Value>)
    ensures r.Some? <==> param.Obj? && Field(param.fields, outer, Null).Obj?
  {
    match TryGet(param, outer)
    case Some(o) => TryGet(o, inner)
    case None => None
  }

  /** The loop's state: the snapshot, the loop variable `print_stats` (None
      while it was never bound: it survives from one parameter to the next),
      and whether an exception escaped `decode_updates`. */
  datatype Fold = Fold(updates: map<string, Value>, printStats: Option<Value>, raised: bool)

  /** One `try` block setting `key` from `param[outer][inner]`. */
  function Assign(u: map<string, Value>, key: string, v: Option<Value>): map<string, Value>
  {
    if v.Some? then u[key := v.value] else u
  }

  /** The status block: `state.lower()` needs a string. */
  function StatusText(param: Value): Option<Value>
  {
    match Nested(param, "idle_timeout", "state")
    case Some(Str(s)) => Some(Str(Lower(s)))
    case _ => None
  }

  /** The three blocks before `print_stats`. */
  function HeaderFields(u: map<string, Value>, param: Value): (r: map<string, Value>)
    ensures u.Keys <= r.Keys
    ensures !param.Obj? ==> r == u
  {
    var u1 := Assign(u, BedTemperature, Nested(param, "heater_bed", "temperature"));
    var u2 := Assign(u1, NozzleTemperature, Nested(param, "extruder", "temperature"));
    Assign(u2, StatusKey, StatusText(param))
  }

  /** The unguarded `print_stats` part: set the field (None when absent),
      latch `cancelled` on a 'cancelled' state; an unbound variable or a
      non-dict record raises. */
  function PrintStatsPart(u: map<string, Value>, ps: Option<Value>): (r: (map<string, Value>, bool))
    ensures r.1 <==> ps.None? || (ps.value != Null && !ps.value.Obj?)
    ensures ps.Some? ==> PrintStatsKey in r.0 && r.0[PrintStatsKey] == ps.value
  {
    if ps.None? then (u, true)
    else if ps.value == Null then (u[PrintStatsKey := Null], false)
    else if !ps.value.Obj? then (u[PrintStatsKey := ps.value], true)
    else
      var u1 := u[PrintStatsKey := ps.value];
      if PyEq(Field(ps.value.fields, "state", Null), Str("cancelled"))
      then (u1[CancelledKey := Bool(true)], false)
      else (u1, false)
  }

  /** One pass of the loop body over one parameter. */
  function DecodeParam(f: Fold, param: Value): (r: Fold)
    ensures !param.Obj? ==> r.printStats == f.printStats
    ensures StatusParam(param) ==> !r.raised
  {
    var u := HeaderFields(f.updates, param);
    var ps := if param.Obj? then Some(Field(param.fields, PrintStatsKey, Null)) else f.printStats;
    var (u1, raised) := PrintStatsPart(u, ps);
    if raised then Fold(u1, ps, true)
    else Fold(Assign(u1, ProgressKey, Nested(param, "virtual_sdcard", "progress")), ps, false)
  }

  /** `decode_updates(params)`: the parameters folded left to right, up to
      the first escaping exception. */
  function DecodeAll(u: map<string, Value>, params: seq<Value>): (r: Fold)
    ensures (forall i :: 0 <= i < |params| ==> StatusParam(params[i])) ==> !r.raised
  {
    if params == [] then Fold(u, None, false)
    else
      var f := DecodeAll(u, params[..|params| - 1]);
      if f.raised then f else DecodeParam(f, params[|params| - 1])
  }

  lemma DecodeAllSnoc(u: map<string, Value>, params: seq<Value>, q: Value)
    ensures DecodeAll(u, params + [q])
            == if DecodeAll(u, params).raised then DecodeAll(u, params)
               else DecodeParam(DecodeAll(u, params), q)
  {
    assert (params + [q])[..|params|] == params;
  }

  /** A status record as Moonraker sends it: a dict whose `print_stats`, if
      present, is a dict too. */
  predicate StatusParam(q: Value)
  {
    q.Obj? && (Field(q.fields, PrintStatsKey, Null) == Null || Field(q.fields, PrintStatsKey, Null).Obj?)
  }

  /** Whether a parameter sets `key` (other than `cancelled`). */
  predicate Sets(q: Value, key: string)
  {
    StatusParam(q)
    && (if key == BedTemperature then Nested(q, "heater_bed", "temperature").Some?
        else if key == NozzleTemperature then Nested(q, "extruder", "temperature").Some?
        else if key == StatusKey then StatusText(q).Some?
        else if key == ProgressKey then Nested(q, "virtual_sdcard", "progress").Some?
        else key == PrintStatsKey)
  }

  /** The six field names are different strings. */
  lemma KeysDistinct()
    ensures BedTemperature != NozzleTemperature && BedTemperature != StatusKey
    ensures BedTemperature != PrintStatsKey && BedTemperature != CancelledKey && BedTemperature != ProgressKey
    ensures NozzleTemperature != StatusKey && NozzleTemperature != PrintStatsKey
    ensures NozzleTemperature != CancelledKey && NozzleTemperature != ProgressKey
    ensures StatusKey != PrintStatsKey && StatusKey != CancelledKey && StatusKey != ProgressKey
    ensures PrintStatsKey != CancelledKey && PrintStatsKey != ProgressKey && CancelledKey != ProgressKey
  {
    assert BedTemperature[0] == 'b' && NozzleTemperature[0] == 'n' && StatusKey[0] == 's';
    assert PrintStatsKey[0] == 'p' && CancelledKey[0] == 'c' && ProgressKey[0] == 'p';
    assert PrintStatsKey[2] == 'i' && ProgressKey[2] == 'o';
  }

  /** What one parameter sets does not depend on the state before it. */
  lemma ParamSets(f: Fold, g: Fold, q: Value, key: string)
    requires Sets(q, key)
    ensures key in DecodeParam(f, q).updates && key in DecodeParam(g, q).updates
    ensures DecodeParam(f, q).updates[key] == DecodeParam(g, q).updates[key]
  {
    KeysDistinct();
    StatusParamDecodes(f, q);
    StatusParamDecodes(g, q);
    if key == ProgressKey {
    } else if key == PrintStatsKey {
      PrintStatsSet(f.updates, g.updates, q);
    } else {
      HeaderSet(f.updates, g.updates, q, key);
    }
  }

  lemma PrintStatsSet(u: map<string, Value>, v: map<string, Value>, q: Value)
    requires StatusParam(q)
    ensures var ps := Some(Field(q.fields, PrintStatsKey, Null));
            var a := Assign(PrintStatsPart(HeaderFields(u, q), ps).0, ProgressKey, Nested(q, "virtual_sdcard", "progress"));
            var b := Assign(PrintStatsPart(HeaderFields(v, q), ps).0, ProgressKey, Nested(q, "virtual_sdcard", "progress"));
            PrintStatsKey in a && PrintStatsKey in b && a[PrintStatsKey] == b[PrintStatsKey]
  {
    KeysDistinct();
  }

  lemma HeaderSet(u: map<string, Value>, v: map<string, Value>, q: Value, key: string)
    requires Sets(q, key) && key != ProgressKey && key != PrintStatsKey
    ensures var ps := Some(Field(q.fields, PrintStatsKey, Null));
            var a := Assign(PrintStatsPart(HeaderFields(u, q), ps).0, ProgressKey, Nested(q, "virtual_sdcard", "progress"));
            var b := Assign(PrintStatsPart(HeaderFields(v, q), ps).0, ProgressKey, Nested(q, "virtual_sdcard", "progress"));
            key in a && key in b && a[key] == b[key]
  {
    KeysDistinct();
    var ps := Some(Field(q.fields, PrintStatsKey, Null));
    HeaderFieldsSame(u, v, q, key);
    PrintStatsPartKeeps(HeaderFields(u, q), ps, key);
    PrintStatsPartKeeps(HeaderFields(v, q), ps, key);
  }

  /** A header field a parameter sets gets the same value whatever was there. */
  lemma HeaderFieldsSame(u: map<string, Value>, v: map<string, Value>, q: Value, key: string)
    requires Sets(q, key) && (key == BedTemperature || key == NozzleTemperature || key == StatusKey)
    ensures key in HeaderFields(u, q) && key in HeaderFields(v, q)
    ensures HeaderFields(u, q)[key] == HeaderFields(v, q)[key]
  {
    KeysDistinct();
  }

  /** The header blocks leave every other field alone. */
  lemma HeaderFieldsKeep(u: map<string, Value>, q: Value, key: string)
    requires key in u && key != BedTemperature && key != NozzleTemperature && key != StatusKey
    ensures key in HeaderFields(u, q) && HeaderFields(u, q)[key] == u[key]
  {
  }

  /** The `print_stats` block touches only `print_stats` and `cancelled`. */
  lemma PrintStatsPartKeeps(u: map<string, Value>, ps: Option<Value>, key: string)
    requires key in u && key != PrintStatsKey && key != CancelledKey
    ensures key in PrintStatsPart(u, ps).0 && PrintStatsPart(u, ps).0[key] == u[key]
  {
  }

  /** The `print_stats` block only ever sets `cancelled` to True. */
  lemma PrintStatsPartLatch(u: map<string, Value>, ps: Option<Value>)
    requires CancelledKey in u
    ensures CancelledKey in PrintStatsPart(u, ps).0
    ensures PrintStatsPart(u, ps).0[CancelledKey] in {u[CancelledKey], Bool(true)}
  {
    KeysDistinct();
  }

  /** One parameter only ever sets `cancelled` to True. */
  lemma ParamLatch(f: Fold, q: Value)
    requires CancelledKey in f.updates
    ensures CancelledKey in DecodeParam(f, q).updates
    ensures DecodeParam(f, q).updates[CancelledKey] in {f.updates[CancelledKey], Bool(true)}
  {
    KeysDistinct();
    HeaderFieldsKeep(f.updates, q, CancelledKey);
    var ps := if q.Obj? then Some(Field(q.fields, PrintStatsKey, Null)) else f.printStats;
    PrintStatsPartLatch(HeaderFields(f.updates, q), ps);
  }

  /** A status record never raises: the loop body runs to its end. */
  lemma StatusParamDecodes(f: Fold, q: Value)
    requires StatusParam(q)
    ensures var ps := Field(q.fields, PrintStatsKey, Null);
            DecodeParam(f, q)
            == Fold(Assign(PrintStatsPart(HeaderFields(f.updates, q), Some(ps)).0, ProgressKey,
                           Nested(q, "virtual_sdcard", "progress")), Some(ps), false)
  {
  }

  /** A field one parameter does not mention keeps its value. */
  lemma ParamKeeps(f: Fold, q: Value, key: string)
    requires StatusParam(q) && key in f.updates
    requires key == BedTemperature || key == NozzleTemperature || key == StatusKey || key == ProgressKey
    requires !Sets(q, key)
    ensures key in DecodeParam(f, q).updates && DecodeParam(f, q).updates[key] == f.updates[key]
  {
    KeysDistinct();
    StatusParamDecodes(f, q);
    var h := HeaderFields(f.updates, q);
    assert key in h && h[key] == f.updates[key];
    PrintStatsPartKeeps(h, Some(Field(q.fields, PrintStatsKey, Null)), key);
  }

  /** Later parameters override earlier ones: what the last parameter sets
      does not depend on the snapshot or on the parameters before it. */
  lemma LastSetterDecides(u: map<string, Value>, params: seq<Value>, v: map<string, Value>, q: Value, key: string)
    requires !DecodeAll(u, params).raised
    requires Sets(q, key)
    ensures key in DecodeAll(u, params + [q]).updates && key in DecodeAll(v, [q]).updates
    ensures DecodeAll(u, params + [q]).updates[key] == DecodeAll(v, [q]).updates[key]
  {
    DecodeAllSnoc(u, params, q);
    DecodeAllSnoc(v, [], q);
    assert [] + [q] == [q];
    ParamSets(DecodeAll(u, params), DecodeAll(v, []), q, key);
  }

  /** A field the last parameter does not mention keeps the value the
      earlier parameters left. */
  lemma AbsentFieldKept(u: map<string, Value>, params: seq<Value>, q: Value, key: string)
    requires !DecodeAll(u, params).raised
    requires StatusParam(q) && key in DecodeAll(u, params).updates
    requires key == BedTemperature || key == NozzleTemperature || key == StatusKey || key == ProgressKey
    requires !Sets(q, key)
    ensures key in DecodeAll(u, params + [q]).updates
    ensures DecodeAll(u, params + [q]).updates[key] == DecodeAll(u, params).updates[key]
  {
    DecodeAllSnoc(u, params, q);
    ParamKeeps(DecodeAll(u, params), q, key);
  }

  /** One parameter never adds or drops a field of the snapshot. */
  lemma ParamKeepsKeys(f: Fold, q: Value)
    requires f.updates.Keys == PrototypeKeys
    ensures DecodeParam(f, q).updates.Keys == PrototypeKeys
  {
    var h := HeaderFields(f.updates, q);
    assert h.Keys == f.updates.Keys;
    var ps := if q.Obj? then Some(Field(q.fields, PrintStatsKey, Null)) else f.printStats;
    assert PrintStatsPart(h, ps).0.Keys == h.Keys;
  }

  /** The fold never adds or drops a field of the snapshot. */
  lemma {:induction false} DecodeKeepsKeys(u: map<string, Value>, params: seq<Value>)
    requires u.Keys == PrototypeKeys
    ensures DecodeAll(u, params).updates.Keys == PrototypeKeys
    decreases |params|
  {
    if params != [] {
      var init := params[..|params| - 1];
      DecodeKeepsKeys(u, init);
      if !DecodeAll(u, init).raised {
        ParamKeepsKeys(DecodeAll(u, init), params[|params| - 1]);
      }
    }
  }

  /** `cancelled` is a latch: the fold only ever sets it to True, so once
      True it stays True until the next push clears it. */
  lemma {:induction false} CancelledLatched(u: map<string, Value>, params: seq<Value>)
    requires CancelledKey in u
    ensures CancelledKey in DecodeAll(u, params).updates
    ensures var c := DecodeAll(u, params).updates[CancelledKey];
            c == u[CancelledKey] || c == Bool(true)
    decreases |params|
  {
    if params != [] {
      var init := params[..|params| - 1];
      CancelledLatched(u, init);
      if !DecodeAll(u, init).raised {
        ParamLatch(DecodeAll(u, init), params[|params| - 1]);
      }
    }
  }

  /** A 'cancelled' print state latches the flag. */
  lemma CancelledStateLatches(u: map<string, Value>, params: seq<Value>, q: Value)
    requires !DecodeAll(u, params).raised && StatusParam(q)
    requires Field(q.fields, PrintStatsKey, Null).Obj?
    requires Field(Field(q.fields, PrintStatsKey, Null).fields, "state", Null) == Str("cancelled")
    ensures DecodeAll(u, params + [q]).updates[CancelledKey] == Bool(true)
  {
    DecodeAllSnoc(u, params, q);
    StatusParamSettles(DecodeAll(u, params), q);
  }

  /** Moonraker's parameter list is the status record followed by the event
      time. The number makes every `try` block fail and re-applies the
      `print_stats` left from the record, so it changes nothing. */
  lemma EventTimeHarmless(u: map<string, Value>, status: Value, eventTime: real)
    requires StatusParam(status)
    ensures !DecodeAll(u, [status, Num(eventTime)]).raised
    ensures DecodeAll(u, [status, Num(eventTime)]).updates == DecodeAll(u, [status]).updates
  {
    assert [status, Num(eventTime)] == [status] + [Num(eventTime)];
    DecodeAllSnoc(u, [status], Num(eventTime));
    DecodeAllSnoc(u, [], status);
    assert [] + [status] == [status];
    StatusParamSettles(Fold(u, None, false), status);
    NumberReapplies(DecodeAll(u, [status]), eventTime);
  }

  /** The loop state right after a status record: `print_stats` is bound to
      the record's value, the field holds that value, and a 'cancelled'
      state has latched the flag. */
  predicate Settled(f: Fold)
  {
    && !f.raised && f.printStats.Some?
    && (f.printStats.value == Null || f.printStats.value.Obj?)
    && PrintStatsKey in f.updates && f.updates[PrintStatsKey] == f.printStats.value
    && (f.printStats.value.Obj? && PyEq(Field(f.printStats.value.fields, "state", Null), Str("cancelled"))
        ==> CancelledKey in f.updates && f.updates[CancelledKey] == Bool(true))
  }

  lemma StatusParamSettles(f: Fold, q: Value)
    requires StatusParam(q)
    ensures Settled(DecodeParam(f, q))
  {
    KeysDistinct();
    StatusParamDecodes(f, q);
  }

  /** A number after a status record re-applies the bound `print_stats` and
      leaves the loop state as it was. */
  lemma NumberReapplies(f: Fold, t: real)
    requires Settled(f)
    ensures DecodeParam(f, Num(t)) == f
  {
    var u := f.updates;
    assert HeaderFields(u, Num(t)) == u;
    var ps := f.printStats.value;
    assert u[PrintStatsKey := ps] == u;
    if ps.Obj? && PyEq(Field(ps.fields, "state", Null), Str("cancelled")) {
      assert u[CancelledKey := Bool(true)] == u;
    }
  }

  /** The same list in the other order raises: the first parameter binds
      no `print_stats`, and the test of the unbound name escapes. */
  lemma EventTimeFirstRaises(u: map<string, Value>, eventTime: real, rest: seq<Value>)
    ensures DecodeAll(u, [Num(eventTime)] + rest).raised
  {
    RaisedStays(u, [Num(eventTime)], rest);
    DecodeAllSnoc(u, [], Num(eventTime));
    assert [] + [Num(eventTime)] == [Num(eventTime)];
  }

  /** Once an exception escaped, the remaining parameters are not read. */
  lemma {:induction false} RaisedStays(u: map<string, Value>, params: seq<Value>, rest: seq<Value>)
    requires DecodeAll(u, params).raised
    ensures DecodeAll(u, params + rest) == DecodeAll(u, params)
    decreases |rest|
  {
    if rest != [] {
      var init := rest[..|rest| - 1];
      RaisedStays(u, params, init);
      assert (params + rest)[..|params + rest| - 1] == params + init;
    } else {
      assert params + rest == params;
    }
  }

  // ---------------------------------------------------------------------
  // Push

  /** The prototype's fields: the snapshot, whether a remote socket was ever
      opened (it is never reset), and the frames delivered. */
  datatype ProtoState = ProtoState(updates: map<string, Value>, socket: bool, outbox: seq<map<string, Value>>)

  /** One pass of `send_printer_update`: when some field is set, the frame
      is serialised, `cancelled` is cleared, then the frame is sent; a
      missing socket or a failed send loses it. */
  function PushState(s: ProtoState, sendOk: bool): (r: ProtoState)
    ensures r.socket == s.socket
    ensures r.outbox == s.outbox || r.outbox == s.outbox + [s.updates]
    ensures !AnyNonNull(s.updates) ==> r == s
  {
    if !AnyNonNull(s.updates) then s
    else
      var cleared := s.updates[CancelledKey := Null];
      if s.socket && sendOk then s.(updates := cleared, outbox := s.outbox + [s.updates])
      else s.(updates := cleared)
  }

  /** A frame goes out exactly when some field is set and the send works;
      the frame carries the latch, the snapshot afterwards does not. */
  lemma PushReportsLatch(s: ProtoState, sendOk: bool)
    ensures var r := PushState(s, sendOk);
            (|r.outbox| == |s.outbox| + 1 <==> AnyNonNull(s.updates) && s.socket && sendOk)
            && (|r.outbox| == |s.outbox| + 1 ==> r.outbox[|s.outbox|] == s.updates)
            && (AnyNonNull(s.updates) ==> r.updates[CancelledKey] == Null)
  {
  }

  /** A latched cancellation that cannot be sent is lost: the latch is
      cleared although no frame carried it. */
  lemma CancellationLostWithoutSocket(s: ProtoState)
    requires CancelledKey in s.updates && s.updates[CancelledKey] == Bool(true)
    ensures PushState(s, false).outbox == s.outbox
    ensures PushState(s, false).updates[CancelledKey] == Null
  {
    assert s.updates[CancelledKey] != Null;
  }

  /** A cancellation is reported in one frame: the next push, with no
      decoding in between, reports `cancelled` as None. */
  lemma CancellationReportedOnce(s: ProtoState)
    requires CancelledKey in s.updates && s.updates[CancelledKey] == Bool(true)
    requires s.socket
    ensures var r1 := PushState(s, true);
            var r2 := PushState(r1, true);
            r1.outbox == s.outbox + [s.updates]
            && (|r2.outbox| > |r1.outbox| ==> r2.outbox[|r1.outbox|][CancelledKey] == Null)
  {
    assert s.updates[CancelledKey] != Null;
  }

  // ---------------------------------------------------------------------
  // The object

  class PrinterConnect {
    var updates: map<string, Value>
    var socket: bool
    var outbox: seq<map<string, Value>>

    function State(): ProtoState
      reads this
    {
      ProtoState(updates, socket, outbox)
    }

    /** The constructor with the probe's answer, as evidently intended (a
        failed probe sets the status to 'error'). */
    constructor(probe: Result<Value>)
      ensures State() == ProtoState(InitialSnapshot(probe), false, [])
    {
      var status := ProbeStatus(probe);
      updates := PrototypeSnapshot(if status.Ok? then status.value else Str("error"));
      socket := false;
      outbox := [];
    }

    /** `remote_connection` stores the socket it opened. */
    method Open()
      modifies this
      ensures State() == old(State()).(socket := true)
    {
      socket := true;
    }

    /** `decode_updates`: the loop over the parameters, overwriting the
        snapshot in place; `raised` reports an exception that escaped. */
    method DecodeUpdates(params: seq<Value>) returns (raised: bool)
      modifies this
      ensures Fold(updates, DecodeAll(old(updates), params).printStats, raised) == DecodeAll(old(updates), params)
      ensures socket == old(socket) && outbox == old(outbox)
    {
      var printStats: Option<Value> := None;
      raised := false;
      var i := 0;
      while i < |params|
        invariant 0 <= i <= |params|
        invariant Fold(updates, printStats, raised) == DecodeAll(old(updates), params[..i])
        invariant socket == old(socket) && outbox == old(outbox)
      {
        if raised {
          RaisedStays(old(updates), params[..i], params[i..]);
          assert params[..i] + params[i..] == params;
          assert params[..|params|] == params;
          return;
        }
        var param := params[i];
        ghost var before := Fold(updates, printStats, false);
        DecodeAllSnoc(old(updates), params[..i], param);
        assert params[..i + 1] == params[..i] + [param];
        updates := Assign(updates, BedTemperature, Nested(param, "heater_bed", "temperature"));
        updates := Assign(updates, NozzleTemperature, Nested(param, "extruder", "temperature"));
        updates := Assign(updates, StatusKey, StatusText(param));
        assert updates == HeaderFields(before.updates, param);
        if param.Obj? {
          printStats := Some(Field(param.fields, PrintStatsKey, Null));
        }
        var escaped;
        updates, escaped := PrintStatsPart(updates, printStats).0, PrintStatsPart(updates, printStats).1;
        if escaped {
          raised := true;
        } else {
          updates := Assign(updates, ProgressKey, Nested(param, "virtual_sdcard", "progress"));
        }
        assert Fold(updates, printStats, raised) == DecodeParam(before, param);
        i := i + 1;
      }
      assert params[..i] == params;
    }

    /** One pass of `send_printer_update`. */
    method PushUpdate(sendOk: bool) returns (sent: bool)
      modifies this
      ensures State() == PushState(old(State()), sendOk)
      ensures sent <==> AnyNonNull(old(updates)) && socket && sendOk
    {
      sent := false;
      if exists k :: k in updates && updates[k] != Null {
        var frame := updates;
        updates := updates[CancelledKey := Null];
        if socket && sendOk {
          outbox := outbox + [frame];
          sent := true;
        }
      }
    }
  }
}
