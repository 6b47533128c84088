/**
  The file transfer behind the `print` command (`print_file`): the
  download into a memory buffer in chunks, the upload progress it reports,
  the hand-over to the printer host, and what each of the four programs
  leaves behind on each way out.
 */
module Transfer {
  import opened Values
  import opened Telemetry
  import opened Bridge

  /** The answer to the download request: refused (an HTTP error or no
      connection), or served with its `content-length` header (None when
      the header is not an integer, which makes `int()` raise; an absent
      header counts as 0) and the chunks of the body in order. */
  datatype Download = Refused | Served(contentLength: Option<int>, chunks: seq<seq<bv8>>)

  /** How the transfer body was left: normally, through an exception the
      program catches, or through one that escapes `print_file`. */
  datatype Exit = Completed | Caught | Escaped

  // ---------------------------------------------------------------------
  // Chunk accounting

  /** The bytes of the chunks, in order (what the buffer holds). */
  function Flatten(chunks: seq<seq<bv8>>): seq<bv8>
  {
    if chunks == [] then [] else Flatten(chunks[..|chunks| - 1]) + chunks[|chunks| - 1]
  }

  /** The sum of the chunk lengths. */
  function Downloaded(chunks: seq<seq<bv8>>): nat
  {
    if chunks == [] then 0 else Downloaded(chunks[..|chunks| - 1]) + |chunks[|chunks| - 1]|
  }

  /** The buffer holds exactly as many bytes as the counter says. */
  lemma {:induction false} FlattenLength(chunks: seq<seq<bv8>>)
    ensures |Flatten(chunks)| == Downloaded(chunks)
    decreases |chunks|
  {
    if chunks != [] {
      FlattenLength(chunks[..|chunks| - 1]);
    }
  }

  /** Whether a chunk is written: with the `if chunk:` guard an empty chunk
      is skipped, without it (the Klipper driver) every chunk is. */
  predicate Processed(chunk: seq<bv8>, guarded: bool)
  {
    !guarded || |chunk| > 0
  }

  /** `bytes / total * 100`. */
  function Percent(bytes: nat, total: int): real
    requires total > 0
  {
    (bytes as real / total as real) * 100.0
  }

  /** The upload progress values written during the download, in order: one
      per processed chunk, and none at all when the total is unknown. */
  function ProgressTrace(chunks: seq<seq<bv8>>, total: int, guarded: bool): (t: seq<real>)
    ensures |t| <= |chunks|
    ensures total <= 0 ==> t == []
    ensures !guarded && total > 0 ==> |t| == |chunks|
  {
    if chunks == [] then []
    else
      var init := chunks[..|chunks| - 1];
      ProgressTrace(init, total, guarded)
      + if total > 0 && Processed(chunks[|chunks| - 1], guarded)
        then [Percent(Downloaded(chunks), total)] else []
  }

  /** The bridge state after the chunk loop: each processed chunk writes the
      progress and sets dirty when the total is known. */
  function AfterChunks(s: BridgeState, chunks: seq<seq<bv8>>, total: int, guarded: bool): (r: BridgeState)
    ensures total <= 0 ==> r == s
    ensures r != s ==> r.dirty && r.uploading.Num?
    ensures r.updates == s.updates && r.connected == s.connected && r.outbox == s.outbox
  {
    var trace := ProgressTrace(chunks, total, guarded);
    if trace == [] then s else s.(uploading := Num(trace[|trace| - 1]), dirty := true)
  }

  predicate Percentages(t: seq<real>)
  {
    forall i :: 0 <= i < |t| ==> 0.0 <= t[i] <= 100.0
  }

  predicate NonDecreasing(t: seq<real>)
  {
    forall i, j :: 0 <= i <= j < |t| ==> t[i] <= t[j]
  }

  /** Every reported progress lies between 0 and 100 while the body is no
      longer than announced, and the values never go down. */
  lemma {:induction false} ProgressBounded(chunks: seq<seq<bv8>>, total: int, guarded: bool)
    requires Downloaded(chunks) <= total
    ensures Percentages(ProgressTrace(chunks, total, guarded))
    ensures NonDecreasing(ProgressTrace(chunks, total, guarded))
    decreases |chunks|
  {
    if chunks != [] {
      var init := chunks[..|chunks| - 1];
      ProgressBounded(init, total, guarded);
      var t0 := ProgressTrace(init, total, guarded);
      var t := ProgressTrace(chunks, total, guarded);
      if total > 0 && Processed(chunks[|chunks| - 1], guarded) {
        var p := Percent(Downloaded(chunks), total);
        assert t == t0 + [p];
        PercentMonotone(Downloaded(init), Downloaded(chunks), total);
        PercentMonotone(Downloaded(chunks), total, total);
        TraceBelow(init, total, guarded);
        assert forall i :: 0 <= i < |t0| ==> t0[i] <= p;
        assert 0.0 <= p <= 100.0;
      } else {
        assert t == t0;
      }
    }
  }

  /** Every value of the trace is at most the progress of all the bytes. */
  lemma {:induction false} TraceBelow(chunks: seq<seq<bv8>>, total: int, guarded: bool)
    requires total > 0
    ensures forall i :: 0 <= i < |ProgressTrace(chunks, total, guarded)| ==>
              0.0 <= ProgressTrace(chunks, total, guarded)[i] <= Percent(Downloaded(chunks), total)
    decreases |chunks|
  {
    if chunks != [] {
      var init := chunks[..|chunks| - 1];
      TraceBelow(init, total, guarded);
      PercentMonotone(Downloaded(init), Downloaded(chunks), total);
      PercentMonotone(0, Downloaded(chunks), total);
    }
  }

  lemma PercentMonotone(a: nat, b: nat, total: int)
    requires total > 0 && a <= b
    ensures 0.0 <= Percent(a, total) <= Percent(b, total)
    ensures b == total ==> Percent(b, total) == 100.0
  {
    var t := total as real;
    assert a as real / t <= b as real / t;
    assert t / t == 1.0;
  }

  /** Without a known total no progress is reported, and the progress stays
      at the 0.0 the transfer started with. */
  lemma UnknownTotalReportsNothing(s: BridgeState, chunks: seq<seq<bv8>>, total: int, guarded: bool)
    requires total <= 0
    ensures ProgressTrace(chunks, total, guarded) == []
    ensures AfterChunks(s, chunks, total, guarded) == s
  {
    if chunks != [] {
      UnknownTotalReportsNothing(s, chunks[..|chunks| - 1], total, guarded);
    }
  }

  const MiB: nat := 1048576

  /** A 10 MiB file in 4 MiB chunks reports 40, 80 and 100 percent. */
  lemma TenMebibyteFile(chunks: seq<seq<bv8>>)
    requires |chunks| == 3
    requires |chunks[0]| == 4 * MiB && |chunks[1]| == 4 * MiB && |chunks[2]| == 2 * MiB
    ensures ProgressTrace(chunks, 10 * MiB, true) == [40.0, 80.0, 100.0]
  {
    assert chunks[..2][..1] == chunks[..1];
    assert chunks[..1][..0] == [];
    assert Downloaded(chunks[..1]) == 4 * MiB;
    assert Downloaded(chunks[..2]) == 8 * MiB;
    assert Downloaded(chunks) == 10 * MiB;
    assert ProgressTrace(chunks[..1], 10 * MiB, true) == [40.0];
    assert ProgressTrace(chunks[..2], 10 * MiB, true) == [40.0, 80.0];
  }

  /** The chunk loop: each chunk is appended to the buffer and counted, and
      the bridge's upload progress is updated when the total is known. */
  method ReceiveChunks(b: Bridge, chunks: seq<seq<bv8>>, total: int, guarded: bool)
    returns (buffer: seq<bv8>, bytesDownloaded: nat, trace: seq<real>)
    modifies b
    ensures buffer == Flatten(chunks) && bytesDownloaded == |buffer|
    ensures trace == ProgressTrace(chunks, total, guarded)
    ensures b.State() == AfterChunks(old(b.State()), chunks, total, guarded)
  {
    buffer := [];
    bytesDownloaded := 0;
    trace := [];
    var i := 0;
    while i < |chunks|
      invariant 0 <= i <= |chunks|
      invariant buffer == Flatten(chunks[..i]) && bytesDownloaded == |buffer|
      invariant trace == ProgressTrace(chunks[..i], total, guarded)
      invariant b.State() == AfterChunks(old(b.State()), chunks[..i], total, guarded)
    {
      var chunk := chunks[i];
      assert chunks[..i + 1][..i] == chunks[..i];
      FlattenLength(chunks[..i + 1]);
      if Processed(chunk, guarded) {
        buffer := buffer + chunk;
        bytesDownloaded := bytesDownloaded + |chunk|;
        if total > 0 {
          var progress := (bytesDownloaded as real / total as real) * 100.0;
          b.uploading := Num(progress);
          b.dirty := true;
          trace := trace + [progress];
        }
      } else {
        assert chunk == [];
        assert Flatten(chunks[..i + 1]) == buffer + chunk;
      }
      i := i + 1;
    }
    assert chunks[..i] == chunks;
  }

  // ---------------------------------------------------------------------
  // File names

  /** The index of the last `/` in `s`, or -1. */
  function LastSlash(s: string): (k: int)
    ensures -1 <= k < |s|
    ensures k >= 0 ==> s[k] == '/'
    ensures forall j :: k < j < |s| ==> s[j] != '/'
  {
    if s == [] then -1
    else if s[|s| - 1] == '/' then |s| - 1
    else LastSlash(s[..|s| - 1])
  }

  /** `os.path.basename`: what follows the last `/`. */
  function Basename(s: string): (b: string)
    ensures forall j :: 0 <= j < |b| ==> b[j] != '/'
    ensures |b| <= |s| && b == s[|s| - |b|..]
  {
    s[LastSlash(s) + 1..]
  }

  /** `os.path.join(directory, name)` for one name. */
  function JoinPath(directory: string, name: string): (p: string)
    ensures |name| <= |p| && p[|p| - |name|..] == name
    ensures !(|name| > 0 && name[0] == '/') ==> |directory| <= |p| && p[..|directory|] == directory
  {
    if |name| > 0 && name[0] == '/' then name
    else if directory == [] || directory[|directory| - 1] == '/' then directory + name
    else directory + "/" + name
  }

  /** A name without `/` is its own basename. */
  lemma {:induction false} BasenameOfPlainName(s: string)
    requires forall j :: 0 <= j < |s| ==> s[j] != '/'
    ensures Basename(s) == s
  {
    assert LastSlash(s) == -1;
  }

  /** Joining a directory and a basename and taking the basename again
      gives the same name back: the saved file and the print request name
      the same file, and no directory of the remote name survives. */
  lemma {:induction false} BasenameOfJoin(directory: string, fileName: string)
    ensures Basename(JoinPath(directory, Basename(fileName))) == Basename(fileName)
  {
    var b := Basename(fileName);
    var p := JoinPath(directory, b);
    if |b| > 0 && b[0] == '/' {
      assert false;
    } else if directory == [] {
      BasenameOfPlainName(b);
    } else {
      assert p[..|p| - |b|] + b == p;
      assert p[|p| - |b| - 1] == '/';
      assert forall j :: |p| - |b| <= j < |p| ==> p[j] != '/';
      assert LastSlash(p) == |p| - |b| - 1;
    }
  }

  /** The gcode directory of the Moonraker programs. */
  function GcodesDirectory(user: string): string
  {
    "/home/" + user + "/printer_data/gcodes"
  }

  // ---------------------------------------------------------------------
  // One transfer per program

  /** Where the file goes: OctoPrint receives the name as given; the
      Moonraker programs save it in the gcode directory under its basename
      and start the print by that basename. */
  datatype Placement = Upload(name: string) | SaveAndStart(path: string, printName: string)

  function PlacementFor(host: Host, directory: string, fileName: string): (p: Placement)
    ensures p.SaveAndStart? ==> Basename(p.path) == p.printName == Basename(fileName)
  {
    if host.IsOctoPrint() then Upload(fileName)
    else
      BasenameOfJoin(directory, fileName);
      SaveAndStart(JoinPath(directory, Basename(fileName)), Basename(fileName))
  }

  /** The state at the start: progress 0.0 and dirty. */
  function StartState(s: BridgeState): (r: BridgeState)
    ensures r.uploading == Num(0.0) && r.dirty
    ensures r.updates == s.updates && r.connected == s.connected && r.outbox == s.outbox
  {
    s.(uploading := Num(0.0), dirty := true)
  }

  /** How the transfer body ends, from the state after the chunk loop. A
      refused download or hand-over is caught everywhere; a bad
      `content-length` escapes everywhere; a failed disk write escapes the
      Moonraker script and is caught by the Klipper driver. */
  function BodyExit(host: Host, download: Download, diskOk: bool, startOk: bool): (e: Exit)
    ensures download.Refused? ==> e == Caught
    ensures e == Escaped <==> download.Served? && (download.contentLength.None? || (host == MoonrakerScript && !diskOk))
    ensures e == Completed ==> download.Served? && startOk && (host.IsOctoPrint() || diskOk)
  {
    match download
    case Refused => Caught
    case Served(length, _) =>
      if length.None? then Escaped
      else if !host.IsOctoPrint() && !diskOk then (if host == KlipperDriver then Caught else Escaped)
      else if !startOk then Caught
      else Completed
  }

  /** The whole `print_file`: start, download, hand-over, clean-up, and the
      ready frame of the two drivers. */
  function TransferState(host: Host, s: BridgeState, download: Download, diskOk: bool, startOk: bool, sendOk: bool)
    : (r: (BridgeState, Exit))
    ensures r.0.connected == s.connected
    ensures r.0.outbox == s.outbox || r.0.outbox == s.outbox + [PrinterReady]
    ensures (host == OctoPrintScript || host == MoonrakerScript) ==> r.0.outbox == s.outbox
    ensures r.1 == Completed ==> Lookup(r.0.updates, CancelledKey) == Null
    ensures r.1 != Completed ==> r.0.updates == s.updates
  {
    var exit := BodyExit(host, download, diskOk, startOk);
    (Cleanup(host, AfterBody(host, StartState(s), download), exit, sendOk), exit)
  }

  /** The state once the body's download loop has run, if the response
      carried a length. */
  function AfterBody(host: Host, s: BridgeState, download: Download): BridgeState
  {
    if download.Served? && download.contentLength.Some?
    then AfterChunks(s, download.chunks, download.contentLength.value, host != KlipperDriver)
    else s
  }

  /** What follows the body: the cancelled flag cleared on success, the
      `finally` block's progress reset and the ready announcement. */
  function Cleanup(host: Host, s: BridgeState, exit: Exit, sendOk: bool): (r: BridgeState)
    ensures r.connected == s.connected
    ensures r.outbox == s.outbox || r.outbox == s.outbox + [PrinterReady]
    ensures (host == OctoPrintScript || host == MoonrakerScript || exit == Escaped) ==> r.outbox == s.outbox
    ensures host == KlipperDriver ==> r.uploading == Null && r.dirty
    ensures exit == Completed ==> Lookup(r.updates, CancelledKey) == Null
    ensures exit != Completed ==> r.updates == s.updates
  {
    var s3 := if exit == Completed then s.(updates := s.updates[CancelledKey := Null]) else s;
    var s4 :=
      if host == KlipperDriver then s3.(uploading := Null, dirty := true)
      else if exit != Escaped then s3.(uploading := Null)
      else s3;
    var announces := (host == OctoPrintDriver || host == KlipperDriver) && exit != Escaped;
    if announces then ReadyState(s4, sendOk) else s4
  }

  /** On every way out of the Klipper driver's transfer the progress is None
      and dirty is set, and `ready` follows unless an exception escaped. */
  lemma KlipperDriverCleanup(s: BridgeState, download: Download, diskOk: bool, startOk: bool)
    ensures var (r, exit) := TransferState(KlipperDriver, s, download, diskOk, startOk, true);
            r.uploading == Null && r.dirty
            && (r.outbox == if exit != Escaped && s.connected then s.outbox + [PrinterReady] else s.outbox)
  {
  }

  /** In the OctoPrint driver the progress is back to None and `ready` is
      sent after a success and after a caught request error alike. */
  lemma OctoPrintDriverCleanup(s: BridgeState, download: Download, startOk: bool)
    requires download.Refused? || download.contentLength.Some?
    ensures var (r, exit) := TransferState(OctoPrintDriver, s, download, true, startOk, true);
            exit != Escaped && r.uploading == Null
            && r.outbox == if s.connected then s.outbox + [PrinterReady] else s.outbox
  {
  }

  /** The bridge scripts never send `ready` after a transfer, and an escaping
      exception leaves the progress where the download left it. */
  lemma ScriptsTransfer(host: Host, s: BridgeState, download: Download, diskOk: bool, startOk: bool)
    requires host == OctoPrintScript || host == MoonrakerScript
    ensures var (r, exit) := TransferState(host, s, download, diskOk, startOk, true);
            r.outbox == s.outbox && r.dirty
            && (exit != Escaped ==> r.uploading == Null)
            && (exit == Escaped && download.Served? && download.contentLength.None? ==> r.uploading == Num(0.0))
  {
  }

  /** A completed transfer clears the `cancelled` flag of the snapshot. */
  lemma CompletedClearsCancelled(host: Host, s: BridgeState, download: Download, diskOk: bool, startOk: bool, sendOk: bool)
    requires TransferState(host, s, download, diskOk, startOk, sendOk).1 == Completed
    requires CancelledKey in s.updates
    ensures TransferState(host, s, download, diskOk, startOk, sendOk).0.updates == s.updates[CancelledKey := Null]
  {
  }

  /** `print_file` on the bridge: the chunk loop and the exits as above.
      Returns the buffer handed to the printer host (empty when the body
      did not get that far) and the placement of the file. */
  method PrintFile(b: Bridge, host: Host, directory: string, fileName: string, download: Download,
                   diskOk: bool, startOk: bool, sendOk: bool)
    returns (exit: Exit, buffer: seq<bv8>, placement: Placement)
    modifies b
    ensures (b.State(), exit) == TransferState(host, old(b.State()), download, diskOk, startOk, sendOk)
    ensures exit == Completed ==> download.Served? && buffer == Flatten(download.chunks)
    ensures placement == PlacementFor(host, directory, fileName)
  {
    b.uploading := Num(0.0);
    b.dirty := true;
    assert b.State() == StartState(old(b.State()));
    buffer := [];
    placement := PlacementFor(host, directory, fileName);
    exit := BodyExit(host, download, diskOk, startOk);
    if download.Served? && download.contentLength.Some? {
      var n, trace;
      buffer, n, trace := ReceiveChunks(b, download.chunks, download.contentLength.value, host != KlipperDriver);
    }
    assert b.State() == AfterBody(host, StartState(old(b.State())), download);
    FinishTransfer(b, host, exit, sendOk);
  }

  /** The steps after the body, on the live bridge. */
  method FinishTransfer(b: Bridge, host: Host, exit: Exit, sendOk: bool)
    modifies b
    ensures b.State() == Cleanup(host, old(b.State()), exit, sendOk)
  {
    if exit == Completed {
      b.updates := b.updates[CancelledKey := Null];
    }
    if host == KlipperDriver {
      b.uploading := Null;
      b.dirty := true;
    } else if exit != Escaped {
      b.uploading := Null;
    }
    if (host == OctoPrintDriver || host == KlipperDriver) && exit != Escaped {
      b.SendReady(sendOk);
    }
  }
}
