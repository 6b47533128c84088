/**
  The printer-control operations other than the file transfer, on both
  printer hosts: the HTTP requests each one makes, in order, the G-code it
  sends to Moonraker, and whether it announces `printer_ready` to the
  remote service afterwards.
 */
module Driver {
  import opened Values
  import opened Helpers
  import opened Bridge

  /** A control operation, with the arguments the inbound decoder gives it. */
  datatype Operation =
    | SendCommand(command: Value)
    | StopPrint
    | ReconnectPrinter
    | PausePrint
    | ResumePrint
    | MoveExtruder(x: int, y: int, z: int)
    | SetTemperatures(tool: int, bed: int)

  /** One HTTP POST to the printer host: its path and its JSON body. */
  datatype Request = Request(path: string, body: Value)

  /** The result of running an operation: the requests actually sent, whether
      `send_printer_ready` was called, and whether an exception escaped the
      operation. */
  datatype Run = Run(sent: seq<Request>, ready: bool, raised: bool)

  // ---------------------------------------------------------------------
  // G-code for Moonraker

  const GcodeScriptPath: string := "/printer/gcode/script"

  /** The jog script: relative positioning, one linear move at feed rate
      1000, absolute positioning restored. */
  function JogScript(x: int, y: int, z: int): (g: string)
    ensures |g| == |JogLine(x, y, z)| + 8
    ensures g[..4] == "G91\n" && g[|g| - 4..] == "\nG90"
  {
    var g := "G91\n" + JogLine(x, y, z) + "\nG90";
    assert g[..4] == "G91\n";
    assert g[|g| - 4..] == "\nG90";
    g
  }

  /** The middle line of the jog script. */
  function JogLine(x: int, y: int, z: int): string
  {
    "G1 X" + IntToString(x) + " Y" + IntToString(y) + " Z" + IntToString(z) + " F1000"
  }

  /** The jog script is three lines: `G91`, the move, `G90`. */
  lemma JogScriptModes(x: int, y: int, z: int)
    ensures var g := JogScript(x, y, z);
            g[..4] == "G91\n" && g[|g| - 4..] == "\nG90"
            && g[4..|g| - 4] == JogLine(x, y, z)
  {
    var g := JogScript(x, y, z);
    var line := JogLine(x, y, z);
    assert g == "G91\n" + line + "\nG90";
    assert g[..4] == "G91\n";
    assert g[|g| - 4..] == "\nG90";
    assert g[4..|g| - 4] == line;
  }

  function ToolTemperatureScript(tool: int): string
  {
    "M104 S" + IntToString(tool)
  }

  function BedTemperatureScript(bed: int): string
  {
    "M140 S" + IntToString(bed)
  }

  function Script(gcode: string): Request
  {
    Request(GcodeScriptPath, Obj(map["script" := Str(gcode)]))
  }

  // ---------------------------------------------------------------------
  // Requests per host

  /** The requests an operation makes, in order, when each succeeds. */
  function Plan(host: Host, op: Operation): (p: seq<Request>)
    ensures |p| == if op.SetTemperatures? then 2 else 1
  {
    if host.IsOctoPrint() then
      match op
      case SendCommand(command) =>
        [Request("/api/printer/command", Obj(map["command" := command]))]
      case StopPrint => [Request("/api/job", Obj(map["command" := Str("cancel")]))]
      case ReconnectPrinter =>
        [Request("/api/connection", Obj(map["command" := Str("connect"), "port" := Str("AUTO")]))]
      case PausePrint =>
        [Request("/api/job", Obj(map["command" := Str("pause"), "action" := Str("pause")]))]
      case ResumePrint =>
        [Request("/api/job", Obj(map["command" := Str("pause"), "action" := Str("resume")]))]
      case MoveExtruder(x, y, z) =>
        [Request("/api/printer/printhead", Obj(map["command" := Str("jog"), "x" := Num(x as real),
                                                   "y" := Num(y as real), "z" := Num(z as real),
                                                   "speed" := Num(1000.0)]))]
      case SetTemperatures(tool, bed) =>
        [Request("/api/printer/tool", Obj(map["command" := Str("target"),
                                              "targets" := Obj(map["tool0" := Num(tool as real)])])),
         Request("/api/printer/bed", Obj(map["command" := Str("target"), "target" := Num(bed as real)]))]
    else
      match op
      case SendCommand(command) => [Request(GcodeScriptPath, Obj(map["script" := command]))]
      case StopPrint => [Request("/printer/print/cancel", Null)]
      case ReconnectPrinter => [Request("/printer/restart", Null)]
      case PausePrint => [Request("/printer/print/pause", Null)]
      case ResumePrint => [Request("/printer/print/resume", Null)]
      case MoveExtruder(x, y, z) => [Script(JogScript(x, y, z))]
      case SetTemperatures(tool, bed) =>
        [Script(ToolTemperatureScript(tool)), Script(BedTemperatureScript(bed))]
  }

  /** Whether a fully successful operation announces `printer_ready`: never
      in the Moonraker script, never for pause and resume, and for a
      reconnect only in the Klipper driver. */
  predicate AnnouncesReady(host: Host, op: Operation)
    ensures host == MoonrakerScript || op.PausePrint? || op.ResumePrint? ==> !AnnouncesReady(host, op)
    ensures op.ReconnectPrinter? ==> (AnnouncesReady(host, op) <==> host == KlipperDriver)
    ensures host != MoonrakerScript && (op.StopPrint? || op.MoveExtruder? || op.SetTemperatures?)
            ==> AnnouncesReady(host, op)
  {
    host != MoonrakerScript && !op.PausePrint? && !op.ResumePrint?
    && (op.ReconnectPrinter? ==> host == KlipperDriver)
  }

  /** Running an operation. `failAt` is the index of the first request the
      host refuses (or that cannot be delivered), if any; the requests after
      it are not made. Only the OctoPrint jog lets the failure escape, since
      it has no handler around its request. */
  function Execute(host: Host, op: Operation, failAt: Option<nat>): (r: Run)
    ensures r.sent <= Plan(host, op)
    ensures r.ready ==> r.sent == Plan(host, op)
  {
    var plan := Plan(host, op);
    if failAt.Some? && failAt.value < |plan| then
      Run(plan[..failAt.value + 1], false, host.IsOctoPrint() && op.MoveExtruder?)
    else
      Run(plan, AnnouncesReady(host, op), false)
  }

  /** The Moonraker temperature command sends `M104` before `M140`, and a
      refused `M104` means `M140` is never sent and no ready frame follows. */
  lemma TemperatureOrder(host: Host, tool: int, bed: int)
    requires !host.IsOctoPrint()
    ensures Execute(host, SetTemperatures(tool, bed), None).sent
            == [Script("M104 S" + IntToString(tool)), Script("M140 S" + IntToString(bed))]
    ensures Execute(host, SetTemperatures(tool, bed), Some(0)).sent
            == [Script("M104 S" + IntToString(tool))]
    ensures !Execute(host, SetTemperatures(tool, bed), Some(0)).ready
            && !Execute(host, SetTemperatures(tool, bed), Some(1)).ready
  {
  }

  /** `printer_ready` is announced exactly when every request succeeded and
      the host announces that operation; pause and resume never announce it. */
  lemma ReadyRules(host: Host, op: Operation, failAt: Option<nat>)
    ensures var r := Execute(host, op, failAt);
            r.ready <==> (failAt.None? || failAt.value >= |Plan(host, op)|) && AnnouncesReady(host, op)
    ensures op.PausePrint? || op.ResumePrint? || host == MoonrakerScript ==> !Execute(host, op, failAt).ready
  {
  }

  /** A failed jog escapes the OctoPrint hosts' `move_extruder` but is caught
      inside the Moonraker ones. */
  lemma FailedJog(host: Host, x: int, y: int, z: int)
    ensures Execute(host, MoveExtruder(x, y, z), Some(0)).raised <==> host.IsOctoPrint()
  {
  }

  /** The Klipper driver's 409 handling awaits `reconnect_printer`: a
      successful restart announces ready on the live connection. */
  function ConflictReconnect(s: BridgeState, restartOk: bool, sendOk: bool): (r: BridgeState)
    ensures r.outbox == if restartOk && s.connected && sendOk then s.outbox + [PrinterReady] else s.outbox
    ensures r.updates == s.updates && r.dirty == s.dirty && r.connected == s.connected
  {
    var run := Execute(KlipperDriver, ReconnectPrinter, if restartOk then None else Some(0));
    if run.ready then ReadyState(s, sendOk) else s
  }

  lemma ConflictReconnectReady(s: BridgeState, restartOk: bool)
    ensures ConflictReconnect(s, restartOk, true).outbox
            == if restartOk && s.connected then s.outbox + [PrinterReady] else s.outbox
  {
  }
}
