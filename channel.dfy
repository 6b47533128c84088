/**
  Inbound frames from the remote service: how the action of one decoded
  JSON frame becomes a command for the printer (`remote_on_message`), and
  how the receive loop of each program treats a stream of frames.
 */
module Channel {
  import opened Values
  import opened Helpers
  import opened Driver

  /** A command for the printer: a file to print, a control operation, or
      a reboot of the host system. */
  datatype Command =
    | Print(fileName: Value, url: Value)
    | Control(op: Operation)
    | RebootSystem

  /** One text frame from the remote service: JSON that `json.loads`
      accepts, or text it rejects. */
  datatype Message = Json(data: Value) | Malformed

  /** What handling one frame amounts to: a command dispatched, the frame
      ignored (no `action`/`content`, or an unknown action), or an exception
      raised while handling it. */
  datatype Handling = Dispatch(cmd: Command) | Ignored | Failed

  /** Python `key in data` followed by `data[key]`, for a decoded frame that
      is not a dictionary: a string answers `in` by substring and then
      rejects the indexing, every other value rejects `in` itself. */
  function NonDictFrame(data: Value): (h: Handling)
    requires !data.Obj?
    ensures h != Ignored <==> !data.Str? || (Contains(data.s, "action") && Contains(data.s, "content"))
    ensures !h.Dispatch?
  {
    if data.Str? && !(Contains(data.s, "action") && Contains(data.s, "content")) then Ignored
    else Failed
  }

  /** The print command's two arguments, `content['file_name']` and
      `content['url']`; a missing key or a content that is not a dictionary
      raises. */
  function PrintCommand(content: Value): (h: Handling)
    ensures h.Dispatch? <==> content.Obj? && "file_name" in content.fields && "url" in content.fields
    ensures h.Dispatch? ==> h.cmd == Print(content.fields["file_name"], content.fields["url"])
    ensures !h.Dispatch? ==> h == Failed
  {
    if content.Obj? && "file_name" in content.fields && "url" in content.fields then
      Dispatch(Print(content.fields["file_name"], content.fields["url"]))
    else Failed
  }

  /** The exact action names, in the order the dispatcher tests them. */
  function ExactAction(action: Value, content: Value): (r: Option<Handling>)
    ensures r.Some? <==> action.Str? && IsExactName(action.s)
    ensures r.Some? && action != Str("print") ==> r.value.Dispatch? && r.value.cmd.Control?
  {
    if action == Str("print") then Some(PrintCommand(content))
    else if action == Str("stop_print") then Some(Dispatch(Control(StopPrint)))
    else if action == Str("connect") then Some(Dispatch(Control(ReconnectPrinter)))
    else if action == Str("pause_print") then Some(Dispatch(Control(PausePrint)))
    else if action == Str("resume_print") then Some(Dispatch(Control(ResumePrint)))
    else if action == Str("cmd") then Some(Dispatch(Control(SendCommand(content))))
    else if action == Str("heat_printer") then Some(Dispatch(Control(SetTemperatures(215, 60))))
    else if action == Str("cool_printer") then Some(Dispatch(Control(SetTemperatures(0, 0))))
    else None
  }

  /** The dispatcher of the two bridge scripts after the exact names: an
      action containing `move` becomes a jog with the parsed offsets, then
      `reboot_system`, otherwise the action is unknown. `"move" in action`
      on a dictionary tests its keys and then the parser rejects it; on a
      number, a boolean or None it raises. */
  function MoveOrReboot(action: Value): (h: Handling)
    ensures h.Dispatch? <==> action.Str? && (Contains(action.s, "move") || action.s == "reboot_system")
    ensures h.Failed? <==> !action.Str? && !(action.Obj? && "move" !in action.fields)
    ensures h.Dispatch? && h.cmd.Control? ==> h.cmd.op.MoveExtruder?
  {
    match action
    case Str(s) =>
      if Contains(s, "move") then
        var (x, y, z) := MoveValues(s);
        Dispatch(Control(MoveExtruder(x, y, z)))
      else if s == "reboot_system" then Dispatch(RebootSystem)
      else Ignored
    case Obj(fields) => if "move" in fields then Failed else Ignored
    case _ => Failed
  }

  /** `remote_on_message` of the bridge scripts, for one frame. */
  function Decode(msg: Message): (h: Handling)
    ensures msg.Malformed? ==> h == Failed
    ensures msg.Json? && msg.data.Obj? && !("action" in msg.data.fields && "content" in msg.data.fields)
            ==> h == Ignored
  {
    match msg
    case Malformed => Failed
    case Json(data) =>
      if !data.Obj? then NonDictFrame(data)
      else if !("action" in data.fields && "content" in data.fields) then Ignored
      else
        var action := data.fields["action"];
        match ExactAction(action, data.fields["content"])
        case Some(h) => h
        case None => MoveOrReboot(action)
  }

  /** A frame carrying `action` and `content`. */
  function Frame(action: Value, content: Value): Message
  {
    Json(Obj(map["action" := action, "content" := content]))
  }

  /** The action names the dispatcher compares for equality. */
  predicate IsExactName(action: string)
  {
    action in {"print", "stop_print", "connect", "pause_print", "resume_print", "cmd",
               "heat_printer", "cool_printer"}
  }

  /** Every occurrence of `move` puts a `v` in the text. */
  lemma MoveHasV(s: string)
    requires Contains(s, "move")
    ensures exists i :: 0 <= i < |s| && s[i] == 'v'
  {
    ContainsAt(s, "move");
    var i :| OccursAt(s, "move", i);
    assert s[i..i + 4][2] == s[i + 2];
  }

  /** A text without the letter `v` does not contain `move`. */
  lemma NoMoveWithoutV(s: string)
    requires forall i :: 0 <= i < |s| ==> s[i] != 'v'
    ensures !Contains(s, "move")
  {
    if Contains(s, "move") {
      MoveHasV(s);
      assert false;
    }
  }

  /** A named action is dispatched by its own rule, whatever the content:
      the move rule and the rules after it are never reached. */
  lemma ExactNamesFirst(action: string, content: Value)
    requires IsExactName(action)
    ensures ExactAction(Str(action), content).Some?
    ensures Decode(Frame(Str(action), content)) == ExactAction(Str(action), content).value
  {
    var data := Obj(map["action" := Str(action), "content" := content]);
    assert data.fields["action"] == Str(action) && data.fields["content"] == content;
  }

  /** What each named action dispatches: `print` starts a print of the
      content's file and URL (or raises), the temperature presets are
      215/60 for heating and 0/0 for cooling, `cmd` forwards its content,
      and the others map to their operations. */
  lemma ExactNames(content: Value)
    ensures ExactAction(Str("print"), content) == Some(PrintCommand(content))
    ensures Decode(Frame(Str("print"), content)) == PrintCommand(content)
    ensures ExactAction(Str("stop_print"), content) == Some(Dispatch(Control(StopPrint)))
    ensures ExactAction(Str("connect"), content) == Some(Dispatch(Control(ReconnectPrinter)))
    ensures ExactAction(Str("pause_print"), content) == Some(Dispatch(Control(PausePrint)))
    ensures ExactAction(Str("resume_print"), content) == Some(Dispatch(Control(ResumePrint)))
    ensures ExactAction(Str("cmd"), content) == Some(Dispatch(Control(SendCommand(content))))
    ensures ExactAction(Str("heat_printer"), content) == Some(Dispatch(Control(SetTemperatures(215, 60))))
    ensures ExactAction(Str("cool_printer"), content) == Some(Dispatch(Control(SetTemperatures(0, 0))))
  {
    ExactNamesFirst("print", content);
  }

  /** An action that matches no rule dispatches nothing; `reboot_system` is
      tested after the move rule. */
  lemma RebootAndUnknown(action: string, content: Value)
    requires !IsExactName(action) && !Contains(action, "move")
    ensures Decode(Frame(Str(action), content))
            == if action == "reboot_system" then Dispatch(RebootSystem) else Ignored
  {
    var data := Obj(map["action" := Str(action), "content" := content]);
    assert data.fields["action"] == Str(action) && data.fields["content"] == content;
  }

  /** `emergency_stop` is not an action any of the programs knows. */
  lemma EmergencyStopUnknown(action: string, content: Value)
    requires action == "emergency_stop"
    ensures Decode(Frame(Str(action), content)) == Ignored
  {
    NoMoveWithoutV(action);
    RebootAndUnknown(action, content);
  }

  /** Any action that contains `move` and is not one of the exact names
      becomes a jog with the offsets the move parser reads from it. */
  lemma MoveActions(action: string, content: Value)
    requires Contains(action, "move") && !IsExactName(action)
    ensures Decode(Frame(Str(action), content))
            == Dispatch(Control(MoveExtruder(MoveValues(action).0, MoveValues(action).1, MoveValues(action).2)))
  {
    var data := Obj(map["action" := Str(action), "content" := content]);
    assert data.fields["action"] == Str(action) && data.fields["content"] == content;
    UnnamedAction(action, content);
  }

  lemma UnnamedAction(action: string, content: Value)
    requires !IsExactName(action)
    ensures ExactAction(Str(action), content) == None
  {
  }

  /** The remote service's jog frame arrives as the jog it describes. */
  lemma JogFrame(a: int, b: int, c: int, content: Value)
    ensures Decode(Frame(Str("move_x:" + IntToString(a) + "_y:" + IntToString(b) + "_z:" + IntToString(c)), content))
            == Dispatch(Control(MoveExtruder(a, b, c)))
  {
    var s := "move_x:" + IntToString(a) + "_y:" + IntToString(b) + "_z:" + IntToString(c);
    assert OccursAt(s, "move", 0) by { assert s[..4] == "move"; }
    ContainsAt(s, "move");
    assert !IsExactName(s) by {
      assert s[..4] == "move";
    }
    MoveActions(s, content);
    MoveRoundTrip(a, b, c);
  }

  /** A frame without `action` or without `content`, or text that is not
      JSON, dispatches nothing. */
  lemma NoDispatchWithoutBothKeys(fields: map<string, Value>)
    requires !("action" in fields && "content" in fields)
    ensures Decode(Json(Obj(fields))) == Ignored
    ensures !Decode(Malformed).Dispatch?
  {
  }

  // ---------------------------------------------------------------------
  // The Moonraker script as written

  /** `remote_on_message` of the Moonraker script as written: the move branch
      calls a parser method the class does not define, so every move action
      raises `AttributeError` instead of jogging. */
  function DecodeMoonrakerAsWritten(msg: Message): (h: Handling)
    ensures !(h.Dispatch? && h.cmd.Control? && h.cmd.op.MoveExtruder?)
  {
    var h := Decode(msg);
    if h.Dispatch? && h.cmd.Control? && h.cmd.op.MoveExtruder? then Failed else h
  }

  /** The jog frame the remote service sends for a 10 mm move in x is
      dropped by the Moonraker script as written, and dispatched by the
      corrected decoder. */
  lemma MoonrakerMoveDropped()
    ensures DecodeMoonrakerAsWritten(Frame(Str("move_x:10_y:0_z:0"), Obj(map[]))) == Failed
    ensures Decode(Frame(Str("move_x:10_y:0_z:0"), Obj(map[]))) == Dispatch(Control(MoveExtruder(10, 0, 0)))
  {
    JogActionText();
    JogFrame(10, 0, 0, Obj(map[]));
  }

  /** The service's 10 mm jog in x, rendered. */
  lemma JogActionText()
    ensures "move_x:" + IntToString(10) + "_y:" + IntToString(0) + "_z:" + IntToString(0) == "move_x:10_y:0_z:0"
  {
    assert IntToString(10) == "10" by {
      assert NatToString(10) == NatToString(1) + [DigitChar(0)];
    }
    assert IntToString(0) == "0";
  }

  // ---------------------------------------------------------------------
  // Receive loops

  /** The commands a stream of frames dispatches in the bridge scripts,
      where every frame's exception is caught on its own. */
  function Dispatched(msgs: seq<Message>): (cmds: seq<Command>)
    ensures |cmds| <= |msgs|
    ensures forall c :: c in cmds ==> exists i :: 0 <= i < |msgs| && Decode(msgs[i]) == Dispatch(c)
  {
    if msgs == [] then []
    else
      var init := msgs[..|msgs| - 1];
      var h := Decode(msgs[|msgs| - 1]);
      var earlier := Dispatched(init);
      assert forall c :: c in earlier ==> exists i :: 0 <= i < |msgs| && Decode(msgs[i]) == Dispatch(c) by {
        forall c | c in earlier ensures exists i :: 0 <= i < |msgs| && Decode(msgs[i]) == Dispatch(c) {
          var i :| 0 <= i < |init| && Decode(init[i]) == Dispatch(c);
          assert msgs[i] == init[i];
        }
      }
      earlier + (if h.Dispatch? then [h.cmd] else [])
  }

  /** Frames are handled independently: a bad frame costs only itself, and
      the loop goes on with the next one on the same connection. */
  lemma {:induction false} DispatchedConcat(a: seq<Message>, b: seq<Message>)
    ensures Dispatched(a + b) == Dispatched(a) + Dispatched(b)
    decreases |b|
  {
    if b == [] {
      assert a + b == a;
    } else {
      var b' := b[..|b| - 1];
      assert (a + b)[..|a + b| - 1] == a + b';
      DispatchedConcat(a, b');
    }
  }

  lemma MalformedFrameSkipped(a: seq<Message>, b: seq<Message>)
    ensures Dispatched(a + [Malformed] + b) == Dispatched(a) + Dispatched(b)
  {
    DispatchedConcat(a + [Malformed], b);
    DispatchedConcat(a, [Malformed]);
    MalformedDispatchesNothing();
  }

  lemma MalformedDispatchesNothing()
    ensures Dispatched([Malformed]) == []
  {
    assert [Malformed][..0] == [];
    assert !Decode(Malformed).Dispatch?;
  }

  /** The receive loop of the bridge scripts over the frames of one
      connection. */
  method ReceiveAll(msgs: seq<Message>) returns (dispatched: seq<Command>)
    ensures dispatched == Dispatched(msgs)
  {
    dispatched := [];
    var i := 0;
    while i < |msgs|
      invariant 0 <= i <= |msgs|
      invariant dispatched == Dispatched(msgs[..i])
    {
      var h := Decode(msgs[i]);
      if h.Dispatch? {
        dispatched := dispatched + [h.cmd];
      }
      assert msgs[..i + 1][..i] == msgs[..i];
      i := i + 1;
    }
    assert msgs[..i] == msgs;
  }

  // ---------------------------------------------------------------------
  // The prototype (ws-simple.py)

  /** `remote_on_message` of the prototype: only `print` dispatches; its
      content must give `url` and `file_name`. */
  function DecodePrototype(msg: Message): (h: Handling)
    ensures h.Dispatch? ==> h.cmd.Print?
    ensures msg.Malformed? ==> h == Failed
    ensures msg.Json? && msg.data.Obj? && !("action" in msg.data.fields && "content" in msg.data.fields)
            ==> h == Ignored
    ensures msg.Json? && msg.data.Obj? && "action" in msg.data.fields && "content" in msg.data.fields
            && msg.data.fields["action"] != Str("print")
            ==> h == Ignored
    ensures msg.Json? && msg.data.Obj? && "action" in msg.data.fields && "content" in msg.data.fields
            && msg.data.fields["action"] == Str("print")
            ==> (var content := msg.data.fields["content"];
                 if content.Obj? && "file_name" in content.fields && "url" in content.fields
                 then h == Dispatch(Print(content.fields["file_name"], content.fields["url"]))
                 else h == Failed)
  {
    match msg
    case Malformed => Failed
    case Json(data) =>
      if !data.Obj? then NonDictFrame(data)
      else if !("action" in data.fields && "content" in data.fields) then Ignored
      else if data.fields["action"] == Str("print") then PrintCommand(data.fields["content"])
      else Ignored
  }

  /** One connection of the prototype: frames are handled until the first
      one that raises, which ends the connection; `consumed` frames were
      read, the last of them the failing one. */
  function Session(msgs: seq<Message>): (r: (seq<Command>, nat))
    ensures r.1 <= |msgs|
  {
    if msgs == [] then ([], 0)
    else
      var h := DecodePrototype(msgs[0]);
      if h.Failed? then ([], 1)
      else
        var (rest, n) := Session(msgs[1..]);
        ((if h.Dispatch? then [h.cmd] else []) + rest, n + 1)
  }

  /** A frame that raises ends the connection: nothing after it is read on
      that connection, whatever it holds. */
  lemma {:induction false} SessionStopsAtFailure(ok: seq<Message>, bad: Message, rest: seq<Message>)
    requires forall i :: 0 <= i < |ok| ==> !DecodePrototype(ok[i]).Failed?
    requires DecodePrototype(bad).Failed?
    ensures Session(ok + [bad] + rest) == (Session(ok).0, |ok| + 1)
    decreases |ok|
  {
    if ok == [] {
      assert ok + [bad] + rest == [bad] + rest;
    } else {
      assert (ok + [bad] + rest)[1..] == ok[1..] + [bad] + rest;
      SessionStopsAtFailure(ok[1..], bad, rest);
    }
  }

  /** The prototype's receive loop over the frames of one connection. */
  method ReceiveSession(msgs: seq<Message>) returns (dispatched: seq<Command>, consumed: nat)
    ensures (dispatched, consumed) == Session(msgs)
  {
    dispatched := [];
    consumed := 0;
    var failed := false;
    assert msgs[0..] == msgs;
    assert [] + Session(msgs).0 == Session(msgs).0;
    while consumed < |msgs| && !failed
      invariant 0 <= consumed <= |msgs|
      invariant !failed ==> Session(msgs) == (dispatched + Session(msgs[consumed..]).0,
                                              consumed + Session(msgs[consumed..]).1)
      invariant failed ==> Session(msgs) == (dispatched, consumed)
      decreases |msgs| - consumed, !failed
    {
      var h := DecodePrototype(msgs[consumed]);
      var suffix := msgs[consumed..];
      assert suffix[0] == msgs[consumed];
      assert suffix[1..] == msgs[consumed + 1..];
      if h.Failed? {
        assert Session(suffix) == ([], 1);
        assert dispatched + [] == dispatched;
        failed := true;
      } else {
        var step := if h.Dispatch? then [h.cmd] else [];
        var tail := Session(msgs[consumed + 1..]);
        assert Session(suffix) == (step + tail.0, tail.1 + 1);
        assert dispatched + (step + tail.0) == (dispatched + step) + tail.0;
        dispatched := dispatched + step;
      }
      consumed := consumed + 1;
    }
    if !failed {
      assert msgs[consumed..] == [];
      assert dispatched + [] == dispatched;
    }
  }
}
