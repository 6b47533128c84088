# batch-link bridge, modelled in Dafny

batch-link connects 3D printers to a remote print-management service over a
WebSocket. The service sends commands such as printing a file from a URL,
stopping, pausing, resuming, jogging the print head or setting temperatures.
The bridge carries these out against the printer host's HTTP API and reports
the printer's state back. The printer host is OctoPrint or Moonraker/Klipper.

The repository has four variants of the bridge:
- `batch-link.py` is the OctoPrint script.
- `batch-link-klipper.py` is the Moonraker script.
- `printercontroller/octoprint.py` and `printercontroller/klipper.py` are the two driver classes of a shared bridge.
- `ws-simple.py` is an early Moonraker prototype.

This project models the logic of these programs. The files are:
- `values.dfy` covers JSON values and the bits of Python semantics the code relies on: `==`, `float()`, `dict.get` on a non-dict, ASCII `lower`/`capitalize`, and substring `in`.
- `helpers.dfy` covers the change filter `has_significant_difference` and the move-command parser. The parser is `re.findall(r'[xyz]:-?\d+')` read into x/y/z. A round-trip lemma connects it with the rendering of integers.
- `telemetry.dfy` covers the snapshot (`self.updates`), its reset value, and how a poll becomes a candidate record on OctoPrint (two responses) and on Moonraker (one query). It also covers the Klipper state table, the time-left formula and the reconcile step that copies only significant changes.
- `bridge.dfy` is the bridge object (`class Bridge`). Its fields are the snapshot, the dirty flag, the status, the upload progress, the connection, the push timer and the frames sent. It has:
  - the poll step of every variant, including the reaction to a 409 and to other errors;
  - the connect/reset of the remote connection;
  - the push gate, and the alive and ready heartbeats.
- `driver.dfy` gives the HTTP requests of each control operation on each host, in order. It also gives the G-code sent to Moonraker and when `printer_ready` is announced.
- `channel.dfy` covers the inbound decoder (`remote_on_message`) of the scripts and of the prototype, and their receive loops.
- `transfer.dfy` covers `print_file`: the chunked download with its progress reports, the basename/path handling, and what each variant leaves behind on each way out.
- `prototype.dfy` covers the prototype:
  - its snapshot and its start-up probe;
  - the `decode_updates` fold over a `notify_status_update` parameter list;
  - its push, which clears the `cancelled` latch.

Each method that changes the bridge is specified by a function on the state
value (`State() == PushState(old(State()), now, sendOk)`). The promises of
the source are lemmas about those functions.

The model follows the code in these points:
- A successful remote connect sends only the `auth` frame. It then resets the snapshot with the bridge's current status. It sends no `printer_ready` and does not set the status to unresponsive (`batch-link.py:82-85`, `batch-link.py:147-154`).
- No variant has an `emergency_stop` action. Such a frame is an unknown command (`Channel.EmergencyStopUnknown`).
- In the two bridge scripts, a frame that fails to decode or to dispatch is caught per message. Only the prototype drops the connection and reconnects (`batch-link.py:86-90`, `ws-simple.py:57-67`).
- The parser only reads `x:`, `y:` and `z:` tokens. A jog written without colons (`move_x10y0z0`) parses to (0, 0, 0) and does not move the head (`Helpers.JogWithoutColons`). A frame without a `content` key is ignored before the parser runs.

## Model

| member | source | states |
|---|---|---|
| Values.AsNumber | batch-link/utils/helpers.py:28-32 | `float()` of a number or a bool succeeds with its numeric value; of None, a dict or (in this model) a string it raises |
| Values.PyEqReflexive | batch-link/utils/helpers.py:32-34 | every JSON value is `==` to itself, so an unchanged field is never reported as changed |
| Values.PyEqSymmetric | batch-link/utils/helpers.py:32-34 | Python `==` on JSON values is symmetric |
| Values.PyEq | batch-link/utils/helpers.py:32-34 | Python `==` never equates a dict with a non-dict, a string with a non-string or None with anything but None; numbers and booleans compare by numeric value (`True == 1.0`), strings by their text |
| Values.AsObj | batch-link/printercontroller/klipper.py:29-34 | using a value as a dict succeeds exactly for a dict and yields its entries |
| Values.Field | batch-link/printercontroller/octoprint.py:29-49 | `d.get(key, default)` yields the entry when present and the default otherwise |
| Values.AsText | batch-link/printercontroller/octoprint.py:29 | only a string has `.lower()`; any other value raises |
| Values.Numeric | batch-link/printercontroller/klipper.py:57-60 | arithmetic on a field succeeds exactly when it is numeric |
| Values.Lookup | batch-link/printercontroller/klipper.py:67 | `updates.get(key)` is the entry or None |
| Values.Lower | batch-link/printercontroller/octoprint.py:29 | `str.lower` keeps the length and maps each ASCII letter to lower case |
| Values.LowerKeepsLowerText | batch-link/printercontroller/octoprint.py:29 | text without upper-case letters is unchanged by `str.lower` |
| Values.LowerIdempotent | batch-link/printercontroller/octoprint.py:29 | lower-casing twice is lower-casing once |
| Values.Capitalize | batch-link/printercontroller/klipper.py:55 | `str.capitalize` upper-cases the first letter and lower-cases the rest |
| Values.ContainsAt | batch-link/batch-link.py:135 | a substring test succeeds exactly when the word occurs at some position |
| Values.Contains | batch-link/batch-link.py:135 | `sub in s` holds only when `sub` is no longer than `s`, and always for the empty `sub` |
| Helpers.Threshold | batch-link/utils/helpers.py:21-27 | exactly the bed and nozzle temperatures have a threshold, and it is 0.7 |
| Helpers.TemperatureThreshold | batch-link/utils/helpers.py:26-30 | two numeric temperatures differ significantly exactly when they are at least 0.7 apart, in either direction |
| Helpers.TemperatureFallback | batch-link/utils/helpers.py:31-32 | when either temperature is not numeric, the filter falls back to `!=` |
| Helpers.OtherKeysUseInequality | batch-link/utils/helpers.py:33-34 | every other field is significant exactly when `!=` holds |
| Helpers.NotSignificantWhenEqual | batch-link/utils/helpers.py:20-34 | no field is ever significant against itself |
| Helpers.SignificanceSymmetric | batch-link/utils/helpers.py:20-34 | the filter does not depend on the direction of the change |
| Helpers.HasSignificantDifference | batch-link/utils/helpers.py:20-34 | a change is significant only between two different values |
| Helpers.DigitRun | batch-link/utils/helpers.py:5 | `\d+` takes the longest run of digits: all digits, and the next character is not one |
| Helpers.MatchPrefix | batch-link/utils/helpers.py:5 | a token matches exactly where an axis letter, a colon and digits (optionally negative) start, and it is at least three characters |
| Helpers.FindAll | batch-link/utils/helpers.py:5 | every token found names one of the axes x, y, z |
| Helpers.ParseMoveCommand | batch-link/utils/helpers.py:3-18 | the loop over the tokens yields the x/y/z of the token specification |
| Helpers.AxisValueIsLast | batch-link/utils/helpers.py:9-16 | the last token for an axis wins, and an axis without a token is 0 |
| Helpers.AxisValue | batch-link/utils/helpers.py:9-16 | a non-zero offset for an axis is the value of a token for that axis |
| Helpers.MoveValues | batch-link/utils/helpers.py:3-18 | each non-zero offset of the jog comes from a token `x:`, `y:` or `z:` found in the action |
| Helpers.JogWithoutColons | batch-link/utils/helpers.py:5 | the colon-free jog `move_x10y0z0` holds no token and parses to (0, 0, 0) |
| Helpers.FindAllEmptyIff | batch-link/utils/helpers.py:5 | no token is found exactly when no position starts a token |
| Helpers.NoTokenParsesToZero | batch-link/utils/helpers.py:14-16 | a string without tokens parses to (0, 0, 0) |
| Helpers.MalformedTokensIgnored | batch-link/utils/helpers.py:5 | upper-case axes, a missing colon and a sign without digits are not tokens |
| Helpers.DigitChar | batch-link/printercontroller/klipper.py:230 | each decimal digit renders as the character of that digit |
| Helpers.NatToString | batch-link/printercontroller/klipper.py:230 | `str()` of a natural number is a non-empty digit string |
| Helpers.IntToString | batch-link/printercontroller/klipper.py:230 | `str()` of an integer is non-empty |
| Helpers.NatToStringValue | batch-link/printercontroller/klipper.py:230 | reading the rendered digits back gives the number |
| Helpers.DigitRunOfBlock | batch-link/utils/helpers.py:5 | the digit run over a digit block followed by a non-digit is the rest of the block |
| Helpers.MatchRendered | batch-link/utils/helpers.py:5 | `axis:` followed by `str(v)` matches as the token (axis, v) |
| Helpers.MatchDigits | batch-link/utils/helpers.py:5 | `axis:`, an optional `-` and a block of digits followed by a non-digit match as one token with that signed value |
| Helpers.MatchPrefixParts | batch-link/utils/helpers.py:5-11 | a token is read as its sign and digit block |
| Helpers.DigitRunSuffix | batch-link/utils/helpers.py:5 | a digit run depends only on the text from its start |
| Helpers.FindAllSkips | batch-link/utils/helpers.py:5 | text without axis letters adds no tokens |
| Helpers.FindAllRendered | batch-link/utils/helpers.py:5 | a rendered token is found first, followed by the tokens of the rest |
| Helpers.FindAllJog | batch-link/utils/helpers.py:5 | `move_x:a_y:b_z:c` yields exactly the tokens x=a, y=b, z=c |
| Helpers.FindAllSkipsMove | batch-link/utils/helpers.py:5 | the `move_` prefix contributes no token |
| Helpers.MoveRoundTrip | batch-link/utils/helpers.py:3-18 | parsing the service's jog action `move_x:a_y:b_z:c` gives back (a, b, c) for all integers |
| Telemetry.InitialUpdates | batch-link/batch-link.py:598-620 | the reset snapshot has the 14 fields; status is the bridge's status, `print_stats` is the five-None record, and all else is None |
| Telemetry.ResetSnapshotIsReportable | batch-link/batch-link.py:630 | a reset snapshot always has a non-None field, so the push gate's "any value set" test holds |
| Telemetry.KlipperStateMap | batch-link/printercontroller/klipper.py:45-55 | a Klipper `standby` state reports as `operational`; every other state reports as itself, lowercased |
| Telemetry.CapitalizeWord | batch-link/printercontroller/klipper.py:55 | capitalize yields the word with its first letter upper-cased and the rest lower-cased |
| Telemetry.KlipperJobStateCapitalized | batch-link/printercontroller/klipper.py:45-55 | for every state, the job state is the capitalized status, in the table and in the fallback |
| Telemetry.TimeLeft | batch-link/printercontroller/klipper.py:58-64 | with positive progress and print time, time left × progress = print time × (100 − progress); otherwise 0 |
| Telemetry.TimeLeftInRange | batch-link/printercontroller/klipper.py:58-64 | for progress in (0, 100] the time left is non-negative, and at 100 % it is zero |
| Telemetry.MoonrakerTemperatures | batch-link/printercontroller/klipper.py:33-39 | the four fields are the `temperature` and `target` of `extruder` and `heater_bed`, each 0.0 when missing |
| Telemetry.MoonrakerJob | batch-link/printercontroller/klipper.py:43-64 | the job half succeeds exactly when the state is a string, progress is numeric and, when progress is positive, the print time is numeric; its fields are those of the state table, ×100 progress and the time-left formula |
| Telemetry.MoonrakerCandidate | batch-link/printercontroller/klipper.py:27-64 | the candidate exists exactly when `result.status` and its `extruder`, `heater_bed`, `print_stats` and `virtual_sdcard` are dicts and the job half succeeds; it is then the temperature half joined with the job half, with exactly the ten Moonraker fields |
| Telemetry.MoonrakerDefaults | batch-link/printercontroller/klipper.py:29-64 | an empty answer gives status '', temperatures and progress 0.0, file name None, time left 0.0 |
| Telemetry.OctoPrintStatus | batch-link/printercontroller/octoprint.py:29 | the status is the lowercased `state.text`, 'unknown' when absent; a non-dict state or non-string text raises |
| Telemetry.OctoPrintPrinterFields | batch-link/printercontroller/octoprint.py:28-33 | the printer half exists exactly when the answer is a dict, the status reads and `temperature.bed` and `temperature.tool0` are dicts; it holds the lowered status and the `actual` and `target` of bed and tool0, each 0.0 when missing |
| Telemetry.OctoPrintJobFields | batch-link/printercontroller/octoprint.py:44-49 | the job half succeeds exactly when the answer, `job`, `job.file` and `progress` are dicts; state and error default to None, the file name is `job.file.name` (None when missing), completion, printTime and printTimeLeft default to 0.0 |
| Telemetry.OctoPrintCandidate | batch-link/printercontroller/octoprint.py:28-49 | the candidate succeeds exactly when both halves do and is their union, with the eleven OctoPrint fields |
| Telemetry.OctoPrintPrinterDefaults | batch-link/printercontroller/octoprint.py:29-33 | an empty printer answer gives 'unknown' and 0.0 temperatures |
| Telemetry.OctoPrintJobDefaults | batch-link/printercontroller/octoprint.py:44-49 | an empty job answer gives None state, error and name, and 0.0 progress and time left |
| Telemetry.SignificantKeys | batch-link/printercontroller/klipper.py:66-71 | a candidate field is selected exactly when the filter calls its change significant |
| Telemetry.Overwrite | batch-link/printercontroller/klipper.py:70-71 | selected fields take the candidate's value; all other fields are kept |
| Telemetry.Reconciled | batch-link/printercontroller/klipper.py:66-71 | after a reconcile step a candidate field holds the candidate value exactly when the change is significant, and keeps the stored value otherwise; fields outside the candidate keep theirs; no other field appears |
| Telemetry.ReconcileIdempotent | batch-link/batch-link.py:349-360 | reconciling the same candidate twice changes nothing the second time |
| Telemetry.ReconciledTemperatureClose | batch-link/batch-link.py:349-360 | after a reconcile, a stored numeric temperature is within 0.7 of the reading |
| Telemetry.NozzleScenario | batch-link/utils/helpers.py:20-34 | with the nozzle at 200.0, a reading of 200.3 changes nothing and 201.0 is stored |
| Bridge.OctoPrintOutcome | batch-link/printercontroller/octoprint.py:18-78 | on either request a 409 is a conflict, another HTTP error only an HTTP failure, no answer or an undecodable body a failure; a printer half that raises is a failure before the job request; a candidate comes exactly when both answers arrive and both halves decode, and is their union |
| Bridge.MoonrakerOutcome | batch-link/printercontroller/klipper.py:21-92 | a 409 is a conflict and another HTTP error an HTTP failure; no answer or a body that does not decode is a failure; a body not declared JSON is a failure for the script (`requests`) but an HTTP error for the Klipper driver (aiohttp); a candidate comes exactly when the query answers and decodes |
| Bridge.NonJsonAnswer | batch-link/printercontroller/klipper.py:25-27 | a success answer whose body is not declared JSON marks status 'error' in the Moonraker script but leaves the Klipper driver's state unchanged, since aiohttp reports it as an HTTP error |
| Bridge.PollStep | batch-link/printercontroller/klipper.py:66-92 | only a 409 backs off or reconnects; polling never sends a frame, drops the socket or moves the upload progress; a non-409 HTTP error leaves the state as it was |
| Bridge.MarkError | batch-link/printercontroller/klipper.py:89-91 | status 'error' and the dirty flag set; every other field and the rest of the bridge unchanged |
| Bridge.ReconcileState | batch-link/batch-link.py:349-360 | the snapshot becomes the reconciled one; dirty is set exactly when it was already set or the snapshot changed; nothing else moves |
| Bridge.PollStepAsWritten | batch-link/printercontroller/octoprint.py:54-60 | as written, the scripts behave as specified, the OctoPrint driver never stores a candidate and the Klipper driver marks every non-empty candidate as an error |
| Bridge.ReconcileOverwritesOnlySignificant | batch-link/batch-link.py:349-360 | a field changes exactly when the candidate carries it and the change is significant; dirty is set exactly when some field changed |
| Bridge.ReconcileKeepsTheRest | batch-link/printercontroller/klipper.py:66-75 | the reconcile step touches only the candidate's fields and the dirty flag, and never clears the flag |
| Bridge.ConflictReaction | batch-link/printercontroller/klipper.py:79-86 | a 409 sets status 'error' and dirty and backs off 10 s, reconnecting the printer on every host except the Moonraker script |
| Bridge.ErrorReactions | batch-link/printercontroller/klipper.py:87-92 | other HTTP errors change nothing; other exceptions mark status 'error' on Moonraker hosts and change nothing on OctoPrint hosts |
| Bridge.RepeatedPollIsStable | batch-link/batch-link-klipper.py:387-399 | a second poll with the same answer changes nothing |
| Bridge.DriverPollAsWritten | batch-link/printercontroller/klipper.py:69 | as written, a standby printer's poll sets status 'error' in the Klipper driver and stores nothing in the OctoPrint driver |
| Bridge.StandbyPollReported | batch-link/printercontroller/octoprint.py:54-60 | the corrected poll stores the status 'operational' in both drivers |
| Bridge.PollStepAsWrittenElsewhere | batch-link/batch-link.py:354 | the scripts' own methods take the right arguments, so only the drivers' success path differs |
| Bridge.ResetClearsSnapshot | batch-link/batch-link.py:598-622 | after a reset every field but status and `print_stats` is None, the snapshot is dirty and reportable |
| Bridge.ResetState | batch-link/batch-link.py:598-622 | a reset gives the 14-field snapshot with the bridge's status and sets dirty; the connection, outbox, timer and upload progress stay |
| Bridge.ConnectState | batch-link/batch-link.py:82-85 | a connect marks the socket live, appends exactly the `auth` frame and leaves a fresh dirty snapshot |
| Bridge.DisconnectState | batch-link/batch-link.py:99 | the end of a connection drops the socket and changes nothing else |
| Bridge.RebootState | batch-link/batch-link.py:160-162 | the bridge's own status and the reported status become 'Unresponsive', dirty is set, every other field and the connection are kept |
| Bridge.RebootOutlivesReset | batch-link/batch-link.py:160-162 | after a reboot request the snapshot of a later reset or connect reports 'Unresponsive', while after a poll error it reports the status the bridge kept |
| Bridge.ShouldPush | batch-link/batch-link.py:629-635 | the gate opens only on a live socket with some field set, and always opens after 120 s of silence |
| Bridge.PushState | batch-link/batch-link.py:624-656 | a frame with the old snapshot goes out exactly when the gate is open and the send works, then dirty clears and the timer restarts; an open gate clears `cancelled` and copies the upload progress; a failed send drops the socket; a shut gate changes nothing |
| Bridge.AliveState | batch-link/batch-link.py:658-679 | an alive frame goes out exactly on a live socket whose send works; a failed send drops the socket; the snapshot is untouched |
| Bridge.ReadyState | batch-link/batch-link.py:681-693 | a ready frame goes out exactly on a live socket whose send works; nothing else changes |
| Bridge.PushSendsIffGateOpen | batch-link/batch-link.py:629-646 | a frame goes out exactly when connected, some field is set, and it is dirty or 120 s have passed, and the send succeeds; it carries the snapshot from before the pass |
| Bridge.PushResetsGate | batch-link/batch-link.py:641-646 | after a push: clean, timer restarted, `cancelled` None, upload progress copied in; the gate then stays shut for 120 s |
| Bridge.UploadProgressLagsOneFrame | batch-link/batch-link.py:636-642 | the upload progress is copied in after serialising, so each frame reports the previous pass's progress |
| Bridge.CancellationReportedOnce | batch-link/batch-link.py:640-641 | a latched cancellation goes out in one frame and a later reconcile does not bring it back |
| Bridge.FirstPushAfterConnect | batch-link/batch-link.py:82-85 | the first push after a connect sends the reset snapshot right after the `auth` frame |
| Bridge.HeartbeatsLeaveSnapshot | batch-link/batch-link.py:658-693 | alive and ready frames leave the snapshot alone; ready goes out only on a live socket |
| Bridge.OverwriteOneMore | batch-link/printercontroller/klipper.py:70-71 | overwriting one more significant field extends the overwritten set by that field |
| Bridge.Bridge.constructor | batch-link/batch-link.py:598-622 | a new bridge holds the fresh snapshot, dirty, no connection, no upload |
| Bridge.Bridge.Reset | batch-link/batch-link.py:598-622 | `initialUpdatesValues` resets the snapshot and sets dirty |
| Bridge.Bridge.Connect | batch-link/batch-link.py:82-85 | a connect sends `auth` with the UUID and resets the snapshot |
| Bridge.Bridge.Disconnect | batch-link/batch-link.py:99 | the socket is dropped after any end of the connection |
| Bridge.Bridge.Reboot | batch-link/batch-link-klipper.py:172-174 | `self.status` and `updates['status']` become 'Unresponsive' and dirty is set in place, as `RebootState` states |
| Bridge.Bridge.Reconcile | batch-link/batch-link.py:349-360 | the field-by-field loop leaves the state of the reconcile specification |
| Bridge.ReconcileOneKey | batch-link/batch-link.py:349-360 | one pass of the loop: a field not yet visited still holds its stored value, and it is overwritten exactly when its change is significant |
| Bridge.Bridge.Poll | batch-link/printercontroller/klipper.py:17-94 | one poll iteration leaves the state and reactions of the poll step |
| Bridge.Bridge.PushUpdate | batch-link/batch-link.py:624-656 | one pass of the push task follows the push specification, and it reports a send exactly when the gate was open and the send worked |
| Bridge.Bridge.PushAlive | batch-link/batch-link.py:658-679 | an alive frame on a live socket; a closed socket drops the connection |
| Bridge.Bridge.SendReady | batch-link/batch-link.py:681-693 | a ready frame on a live socket; a failed send is only logged |
| Driver.JogScriptModes | batch-link/printercontroller/klipper.py:228-239 | the jog script is `G91`, then the one `G1 X<x> Y<y> Z<z> F1000` move, then `G90`: relative mode for the move only |
| Driver.JogScript | batch-link/printercontroller/klipper.py:228-239 | the jog script starts in relative mode (`G91`) and ends back in absolute mode (`G90`) around the move line |
| Driver.Plan | batch-link/printercontroller/octoprint.py:169-287 | each operation makes one request (two for temperatures) at its host-specific path and body |
| Driver.Execute | batch-link/printercontroller/klipper.py:96-260 | requests stop at the first failure; ready is announced only after all requests succeeded |
| Driver.TemperatureOrder | batch-link/printercontroller/klipper.py:241-260 | Moonraker sends M104 then M140; a refused M104 stops M140 and suppresses ready |
| Driver.ReadyRules | batch-link/printercontroller/octoprint.py:169-287 | ready is announced exactly when every request succeeded and the host announces that operation; never for pause/resume or in the Moonraker script |
| Driver.AnnouncesReady | batch-link/printercontroller/octoprint.py:169-287 | the Moonraker script, pause and resume never announce ready; a reconnect does only in the Klipper driver; stop, jog and temperatures do on every other host |
| Driver.FailedJog | batch-link/printercontroller/octoprint.py:246-264 | a failed jog escapes on the OctoPrint hosts and is caught on the Moonraker hosts |
| Driver.ConflictReconnectReady | batch-link/printercontroller/klipper.py:79-86 | after a 409, the Klipper driver announces ready exactly when the restart succeeded on a live socket |
| Driver.ConflictReconnect | batch-link/printercontroller/klipper.py:194-204 | the Klipper driver's restart after a 409 adds a ready frame exactly when the restart and the send succeed on a live socket, and leaves the snapshot alone |
| Channel.NonDictFrame | batch-link/batch-link.py:104-108 | a non-dict frame never dispatches; a string passes the `in` test by substring and then raises |
| Channel.PrintCommand | batch-link/batch-link.py:109-113 | print dispatches exactly when content is a dict with `file_name` and `url`, else raises |
| Channel.Decode | batch-link/batch-link.py:103-145 | non-JSON fails; a dict without both `action` and `content` is ignored |
| Channel.ExactAction | batch-link/batch-link.py:109-134 | an exact action is recognised exactly for the eight names, and every one except `print` always dispatches a printer operation |
| Channel.MoveOrReboot | batch-link/batch-link.py:135-143 | after the exact names only a string dispatches, and exactly when it contains `move` or is `reboot_system`; a non-string raises unless it is a dict without a `move` key |
| Channel.ExactNamesFirst | batch-link/batch-link.py:109-134 | an exact action name is dispatched by its own rule, before the move rule |
| Channel.ExactNames | batch-link/batch-link.py:109-134 | `print` dispatches `Print(file_name, url)` from the content or raises, also through the whole decoder; stop, connect, pause and resume map to their operations; heat is 215/60, cool is 0/0, `cmd` forwards its content |
| Channel.RebootAndUnknown | batch-link/batch-link.py:139-143 | after the move rule, `reboot_system` reboots and anything else is unknown |
| Channel.EmergencyStopUnknown | batch-link/batch-link.py:142-143 | `emergency_stop` is an unknown command |
| Channel.MoveActions | batch-link/batch-link.py:135-138 | any other action containing `move` jogs by the parsed offsets |
| Channel.UnnamedAction | batch-link/batch-link.py:109-134 | an action that is none of the exact names matches no exact rule |
| Channel.JogFrame | batch-link/batch-link.py:135-138 | the service's `move_x:a_y:b_z:c` frame dispatches the jog (a, b, c) |
| Channel.NoDispatchWithoutBothKeys | batch-link/batch-link.py:108 | a frame missing `action` or `content`, or non-JSON text, dispatches nothing |
| Channel.DecodeMoonrakerAsWritten | batch-link/batch-link-klipper.py:149 | as written, the Moonraker script never dispatches a jog |
| Channel.MoonrakerMoveDropped | batch-link/batch-link-klipper.py:149 | the frame `move_x:10_y:0_z:0` fails in the script as written and jogs with the corrected decoder |
| Channel.DispatchedConcat | batch-link/batch-link.py:86-90 | frames are handled independently: the commands of a concatenation are the concatenation |
| Channel.Dispatched | batch-link/batch-link.py:86-90 | every dispatched command comes from some frame of the stream, and there are at most as many commands as frames |
| Channel.MalformedFrameSkipped | batch-link/batch-link.py:86-90 | a malformed frame costs only itself |
| Channel.ReceiveAll | batch-link/batch-link.py:86-90 | the receive loop dispatches the commands of the specification |
| Channel.DecodePrototype | ws-simple.py:69-79 | malformed JSON raises; a dict frame without both keys or with an action other than `print` is ignored; a print frame dispatches `Print(file_name, url)` when its content is a dict with both keys and raises otherwise |
| Channel.Session | ws-simple.py:55-67 | a session consumes at most the frames it is given |
| Channel.SessionStopsAtFailure | ws-simple.py:57-67 | the first frame that raises ends the connection; nothing after it is read |
| Channel.ReceiveSession | ws-simple.py:61-62 | the prototype's receive loop follows the session specification |
| Transfer.FlattenLength | batch-link/batch-link.py:434-437 | the buffer holds exactly as many bytes as the download counter says |
| Transfer.ProgressBounded | batch-link/batch-link.py:439-441 | while the body is no longer than announced, every progress is in [0, 100] and never decreases |
| Transfer.TraceBelow | batch-link/batch-link.py:439-441 | every progress value is at most the progress of all bytes received |
| Transfer.ProgressTrace | batch-link/batch-link.py:429-441 | at most one progress value per chunk; none without a known length; one per chunk when every chunk is written |
| Transfer.AfterChunks | batch-link/printercontroller/klipper.py:129-138 | the chunk loop only moves the upload progress and the dirty flag, and nothing at all without a known length |
| Transfer.PercentMonotone | batch-link/batch-link.py:440 | more bytes never give less progress, and all bytes give 100 |
| Transfer.UnknownTotalReportsNothing | batch-link/batch-link.py:429-441 | with a zero or missing length no progress is reported, and it stays at 0.0 |
| Transfer.TenMebibyteFile | batch-link/batch-link.py:434-441 | a 10 MiB file in 4 MiB chunks reports 40, 80, 100 |
| Transfer.ReceiveChunks | batch-link/printercontroller/klipper.py:129-138 | the chunk loop buffers all bytes, counts them and writes the progress trace into the bridge |
| Transfer.LastSlash | batch-link/batch-link-klipper.py:488 | the index found is a `/` and no `/` follows it |
| Transfer.Basename | batch-link/batch-link-klipper.py:488 | a basename is a suffix of the name without any `/` |
| Transfer.BasenameOfPlainName | batch-link/batch-link-klipper.py:488 | a name without `/` is its own basename |
| Transfer.BasenameOfJoin | batch-link/batch-link-klipper.py:488-510 | the saved path's basename is the name the print request starts |
| Transfer.JoinPath | batch-link/printercontroller/klipper.py:153 | the joined path ends with the name and, for a relative name, begins with the directory |
| Transfer.PlacementFor | batch-link/printercontroller/klipper.py:150-163 | on Moonraker the file is saved and printed under the same basename |
| Transfer.StartState | batch-link/printercontroller/klipper.py:115-122 | a transfer starts with progress 0.0 and dirty set, leaving the snapshot and the connection |
| Transfer.BodyExit | batch-link/printercontroller/klipper.py:115-180 | a refused download is caught; an exception escapes exactly on a bad length or a failed disk write in the Moonraker script; a completed body had its disk write and hand-over succeed |
| Transfer.Cleanup | batch-link/printercontroller/klipper.py:165-180 | clean-up keeps the connection, sends at most one ready frame and none from the scripts or after an escape; the Klipper driver always resets the progress; only completion clears `cancelled` |
| Transfer.TransferState | batch-link/batch-link.py:398-480 | a transfer keeps the connection, sends at most a ready frame (none from the scripts), clears `cancelled` when it completes and otherwise leaves the snapshot alone |
| Transfer.KlipperDriverCleanup | batch-link/printercontroller/klipper.py:172-180 | on every exit the Klipper driver clears the progress and sets dirty; ready follows unless an exception escaped |
| Transfer.OctoPrintDriverCleanup | batch-link/printercontroller/octoprint.py:153-167 | the OctoPrint driver clears the progress and announces ready after success and after a request error |
| Transfer.ScriptsTransfer | batch-link/batch-link.py:398-480 | the scripts never announce ready; a caught error clears the progress, an escaping one leaves it |
| Transfer.CompletedClearsCancelled | batch-link/batch-link.py:469 | a completed transfer sets `cancelled` to None |
| Transfer.PrintFile | batch-link/printercontroller/klipper.py:115-180 | `print_file` leaves the bridge in the transfer specification's state and hands over the whole buffer |
| Transfer.FinishTransfer | batch-link/printercontroller/klipper.py:165-179 | after the body: `cancelled` cleared on success, then the `finally` reset of progress and dirty, then the ready announcement |
| Prototype.PrototypeSnapshot | ws-simple.py:32-45 | six fields: status, the five-None `print_stats` record, and the rest None |
| Prototype.ProbeStatus | ws-simple.py:23-28 | the probe yields `result.state` exactly when the answer and its `result` are dicts |
| Prototype.InitialSnapshotAsWritten | ws-simple.py:23-35 | as written, the constructor raises exactly when the probe fails |
| Prototype.InitialSnapshot | ws-simple.py:29-35 | the corrected start-up snapshot has the six fields, the probed state after a successful probe and status 'error' after a failed one, as batch-link/batch-link.py:58-60 and batch-link/batch-link-klipper.py:61-63 do |
| Prototype.ProbeOutcomes | ws-simple.py:23-45 | both constructors agree when the probe succeeds; otherwise the written one raises and the corrected one starts with status 'error' |
| Prototype.UnreachablePrinterAborts | ws-simple.py:23-35 | an unreachable printer or an answer without `result` stops the prototype as written |
| Prototype.TryGet | ws-simple.py:160-162 | `.get` inside a try block succeeds exactly on a dict |
| Prototype.Nested | ws-simple.py:160-162 | the nested read succeeds exactly when the param and its object are dicts |
| Prototype.HeaderFields | ws-simple.py:159-180 | the header blocks never drop a field, and a non-dict parameter sets nothing |
| Prototype.PrintStatsPart | ws-simple.py:182-193 | the `print_stats` block raises exactly when the variable is unbound or bound to a non-dict other than None, and otherwise stores the bound value |
| Prototype.DecodeParam | ws-simple.py:157-200 | a non-dict parameter leaves the loop variable `print_stats` as it was, and a status record never raises |
| Prototype.DecodeAll | ws-simple.py:157-200 | a list of status records never raises |
| Prototype.DecodeAllSnoc | ws-simple.py:158 | the fold processes one more param unless an exception already escaped |
| Prototype.KeysDistinct | ws-simple.py:32-45 | the six field names are distinct |
| Prototype.ParamSets | ws-simple.py:157-200 | what one status record sets does not depend on the state before it |
| Prototype.PrintStatsSet | ws-simple.py:187-188 | `print_stats` is always overwritten by a status record |
| Prototype.HeaderSet | ws-simple.py:159-180 | temperatures and status are set from the record alone |
| Prototype.StatusParamDecodes | ws-simple.py:157-200 | a status record never raises and binds its `print_stats` |
| Prototype.ParamKeeps | ws-simple.py:159-200 | a field a record does not mention keeps its value |
| Prototype.LastSetterDecides | ws-simple.py:158 | later params override earlier ones for every field they set |
| Prototype.AbsentFieldKept | ws-simple.py:159-200 | a field absent from the last param keeps the earlier value |
| Prototype.ParamKeepsKeys | ws-simple.py:157-200 | one param neither adds nor drops a snapshot field |
| Prototype.DecodeKeepsKeys | ws-simple.py:157-200 | the fold neither adds nor drops a snapshot field |
| Prototype.CancelledLatched | ws-simple.py:189-191 | the fold sets `cancelled` only to True, never to False |
| Prototype.ParamLatch | ws-simple.py:189-191 | one parameter leaves `cancelled` as it was or sets it to True |
| Prototype.CancelledStateLatches | ws-simple.py:189-191 | a 'cancelled' print state latches the flag |
| Prototype.EventTimeHarmless | ws-simple.py:182-193 | Moonraker's trailing event time re-applies the carried `print_stats` and changes nothing |
| Prototype.NumberReapplies | ws-simple.py:182-193 | after a status record, a bare number leaves the loop state (snapshot, bound `print_stats`, no exception) exactly as it was |
| Prototype.EventTimeFirstRaises | ws-simple.py:182-187 | a non-dict first param leaves `print_stats` unbound, and the fold raises |
| Prototype.RaisedStays | ws-simple.py:157-200 | after an escaping exception no further param is read |
| Prototype.PushReportsLatch | ws-simple.py:207-215 | a frame goes out exactly when some field is set and the send works; it carries the latch, and the snapshot afterwards has `cancelled` None |
| Prototype.PushState | ws-simple.py:203-220 | a push keeps the socket, sends at most the one frame of the current snapshot, and does nothing when every field is None |
| Prototype.CancellationLostWithoutSocket | ws-simple.py:212-215 | a latched cancellation that cannot be sent is cleared anyway and lost |
| Prototype.CancellationReportedOnce | ws-simple.py:207-215 | a cancellation is reported in one frame; the next push reports None |
| Prototype.PrinterConnect.constructor | ws-simple.py:23-45 | the corrected start-up: the snapshot from the probe, no socket |
| Prototype.PrinterConnect.Open | ws-simple.py:58-59 | the opened socket is stored |
| Prototype.PrinterConnect.DecodeUpdates | ws-simple.py:157-200 | the in-place loop leaves the snapshot of the fold, and reports an escaping exception exactly as the fold does |
| Prototype.PrinterConnect.PushUpdate | ws-simple.py:203-220 | one pass of the push follows the push specification |

## Left out

- Floating point: numbers are exact reals. IEEE rounding, NaN and infinities are not modelled. For example, 200.0 → 200.7 is significant here, but the rounded IEEE difference is just below 0.7.
- Values.AsNumber: `float()` of a numeric string (`"200.5"`) succeeds in Python but counts as non-numeric here. The filter then falls back to `!=`.
- Values.Lower and Values.Capitalize: only ASCII letters change case; Unicode case mapping is not modelled.
- JSON arrays are not a kind of `Value`. The prototype's parameter list is a sequence of values, and a non-list `params` is not modelled.
- Concurrency: the tasks run as `asyncio` coroutines and threads. The model takes each loop body as one atomic step, and interleavings are not modelled.
- Sleeps, intervals and the 10 s back-off appear only as a `Backoff` marker. Clock time is the `now` parameter. Time-based progress logging is left out.
- I/O outcomes are parameters: `Response`, `sendOk`, `diskOk`, `startOk`, `failAt` and `Download`. This covers the HTTP requests, socket sends, disk writes and the download itself.
- The camera tasks (`fetch_snapshot`, `capture_images`, `start_new_recording`) are not modelled; they do no logic on the bridge state.
- `listen_to_printer_push_api` and `get_current_gcode_command` are not modelled either.
- `reboot_system`: its state changes (`Bridge.RebootState`) are modelled; the `update_interval` wait and the `shutdown -r` shell command after them, and the logging of its exit code, are outside the model.
- Configuration parsing and `is_moonraker_running` are not modelled. The start-up status probe of the two scripts is the constructor's `initialStatus` parameter.
- Transfer.PrintFile: the Moonraker script's fallback to `klipper_config/gcodes` when `printer_data/gcodes` is missing is not modelled. The directory is a parameter, and `GcodesDirectory` gives the default.
- Transfer.PrintFile: the file name is taken as a string. A non-string `file_name` would raise in `basename` or in the upload.
- The prototype's `print_file` is not modelled; it does no progress accounting and only clears `cancelled` on success.
- The prototype's `printer_on_message` gating is not modelled: only `notify_status_update` while a remote socket is set reaches `decode_updates`.
- moonraker-files/ws-simple.py is not part of this model (threaded socket plumbing with a fixed upload name).
- moonraker-files/ws.py is not part of this model (a thin wrapper over the WebSocket client).
- moonraker-files/main.py is not part of this model: it is incomplete and cannot start.
- The JavaScript test servers are not part of this model.
- Bridge.MoonrakerOutcome: whether a body counts as JSON is the `NotJson` case of `Response`, not aiohttp's content-type test. A body declared as JSON but malformed is folded into `Unreachable`, which every host treats as a generic exception.
- Bridge.Bridge.Poll: the driver host's call to `reconnect_printer` after a 409 is reported as the `reconnect` result. Its effect is `Driver.ConflictReconnect`.

## Findings

| source | as written | input that shows it | evidently intended | confidence | as-written member | corrected member |
|---|---|---|---|---|---|---|
| batch-link/utils/helpers.py:20 | the shared `has_significant_difference(self, key, old, new)` is called with three arguments at klipper.py:69 and octoprint.py:57, so every successful poll of the two drivers raises TypeError: the Klipper driver marks status 'error' and the OctoPrint driver stores nothing | a Klipper poll reporting `standby` | the comparison runs and the snapshot takes 'operational' | high, not executed | Bridge.DriverPollAsWritten | Bridge.StandbyPollReported |
| batch-link/batch-link-klipper.py:149 | the move branch calls `self.parse_move_command`, which the Moonraker script's class does not define, so every move action raises AttributeError and is only logged | the frame `{"action": "move_x:10_y:0_z:0", "content": {}}` | the head jogs by (10, 0, 0) | high, not executed | Channel.MoonrakerMoveDropped | Channel.JogFrame |
| ws-simple.py:23-35 | when the start-up probe fails, the handler only prints, and the snapshot then reads the unbound `status`, so the constructor raises NameError | the printer host unreachable at start-up | start with status 'error', as both bridge scripts do after a failed probe | medium, not executed | Prototype.UnreachablePrinterAborts | Prototype.InitialSnapshot |
