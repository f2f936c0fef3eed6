/**
 * Emulator bookkeeping of the Android intent runner
 * (_hp/hp/tools/crawler/android_intent.py): the arithmetic between an
 * emulator's console port and its AVD name, the port assignment when the
 * emulators are started, the parsing of `adb devices` output, and the
 * per-URL handling in `run_test` (run id, shell escaping, restart counter).
 * Shell commands are modelled by the command text they would run.
 */
module AndroidIntent {
  import opened Common
  import opened Strings

  /** The console port of the first emulator; later ones follow in steps of two. */
  const StartPort: int := 5554

  /** With auto_restart the emulator is restarted after this many intents. */
  const RestartEvery: nat := 100

  const DeviceListHeader: string := "List of devices attached"

  /**
   * Integer halving toward zero, which is what `int(x / 2)` gives for an integer x as long as
   * x / 2 is exact as a float (|x| < 2^53).
   */
  function TruncHalf(x: int): (r: int)
    ensures x >= 0 ==> 0 <= r && 2 * r <= x < 2 * r + 2
    ensures x < 0 ==> r <= 0 && 2 * r - 2 < x <= 2 * r
  {
    if x >= 0 then x / 2 else -((-x) / 2)
  }

  /**
   * `get_emulator_avd_name`: the number after the last '-' of the device id is the
   * console port P, and the AVD name is `str(int((P - 5554) / 2 + 1))`. A device id
   * whose last piece is not a number makes `int` raise.
   */
  function EmulatorAvdName(deviceId: string): (r: Result<string>)
    ensures r.Err? <==> ParseInt(LastPiece(deviceId, '-')).None?
    ensures r.Ok? ==> ParseInt(r.value).Some?
  {
    match ParseInt(LastPiece(deviceId, '-'))
    case None => Err("ValueError: invalid literal for int()")
    case Some(port) =>
      ParseIntToString(TruncHalf(port - StartPort + 2));
      Ok(IntToString(TruncHalf(port - StartPort + 2)))
  }

  /** The port `get_port_by_emulator_avd_name` computes for the AVD number n. */
  function AvdPort(n: int): int {
    if n <= 0 then StartPort - 2 else StartPort + 2 * (n - 1)
  }

  /**
   * `get_port_by_emulator_avd_name`: start at 5552 and add 2 for every i in
   * `range(1, int(name) + 1)`; a name that is not a number makes `int` raise.
   */
  method PortByAvdName(name: string) returns (r: Result<int>)
    ensures r.Err? <==> ParseInt(name).None?
    ensures r.Ok? ==> r.value == AvdPort(ParseInt(name).value)
    ensures r.Ok? && ParseInt(name).value >= 0 ==> r.value == 5552 + 2 * ParseInt(name).value
  {
    var parsed := ParseInt(name);
    if parsed.None? {
      return Err("ValueError: invalid literal for int()");
    }
    var n := parsed.value;
    var port := 5552;
    var i := 1;
    while i < n + 1
      invariant 1 <= i && (n >= 1 ==> i <= n + 1) && (n < 1 ==> i == 1)
      invariant port == 5552 + 2 * (i - 1)
    {
      port := port + 2;
      i := i + 1;
    }
    return Ok(port);
  }

  /** The device id adb reports for the emulator listening on `port`. */
  function EmulatorId(port: int): string {
    "emulator-" + IntToString(port)
  }

  /**
   * The two conversions are inverse: the device id of the emulator started for AVD
   * number n ≥ 1 converts back to the name `str(n)`; a number n ≤ 0 gets port 5552,
   * which converts to the name "0".
   */
  lemma AvdNameOfPort(n: int)
    ensures EmulatorAvdName(EmulatorId(AvdPort(n))) == Ok(IntToString(if n >= 1 then n else 0))
  {
    var port := AvdPort(n);
    var digits := IntToString(port);
    assert forall i :: 0 <= i < |digits| ==> digits[i] != '-' by {
      assert AllDigits(NatToString(port));
    }
    LastPieceAfter("emulator", digits, '-');
    assert EmulatorId(port) == "emulator" + ['-'] + digits;
    ParseIntToString(port);
    var half := TruncHalf(port - StartPort + 2);
    assert half == if n >= 1 then n else 0;
  }

  /** A shell command the runner issues, kept as its parameters; `CommandText` renders it. */
  datatype Command =
    | StartEmulator(avdName: string, port: int)
    | SendIntent(deviceId: string, packageName: string, activityName: string, url: string)

  /** The command line of each command (lines 47, 127 and 156). */
  function CommandText(c: Command): string {
    match c
    case StartEmulator(name, port) =>
      "nohup emulator @device_" + name + " -no-snapshot  -screen multi-touch -no-window -port " + IntToString(port) + "&"
    case SendIntent(device, pkg, act, url) =>
      "adb -s " + device + " shell am start -n " + pkg + "/" + act + " -a android.intent.action.VIEW -d \"" + url + "\""
  }

  /**
   * The start loop of `start_emulators`: device k (1-based) gets port 5554 + 2(k - 1),
   * which is the port `get_port_by_emulator_avd_name` gives its name, so a restart of
   * that AVD reuses its port.
   */
  method StartEmulators(numDevices: int) returns (commands: seq<Command>)
    ensures |commands| == if numDevices >= 1 then numDevices else 0
    ensures forall k :: 0 <= k < |commands| ==> commands[k] == StartEmulator(IntToString(k + 1), AvdPort(k + 1))
  {
    commands := [];
    var port := StartPort;
    var device := 1;
    while device < numDevices + 1
      invariant 1 <= device && (numDevices >= 1 ==> device <= numDevices + 1) && (numDevices < 1 ==> device == 1)
      invariant |commands| == device - 1
      invariant port == StartPort + 2 * (device - 1)
      invariant forall k :: 0 <= k < |commands| ==> commands[k] == StartEmulator(IntToString(k + 1), AvdPort(k + 1))
    {
      assert port == AvdPort(device);
      commands := commands + [StartEmulator(IntToString(device), port)];
      port := port + 2;
      device := device + 1;
    }
  }

  /** A line of `adb devices` output that names a usable device. */
  predicate KeptLine(line: string) {
    !StartsWith(line, DeviceListHeader) && !Contains(line, "offline")
  }

  /** The lines of the stripped `adb devices` output. */
  function OutputLines(output: string): seq<string> {
    Split(Strip(output), '\n')
  }

  /** The device ids of the kept lines, in order: each is the text before the line's first tab. */
  function DeviceIds(lines: seq<string>): (ids: seq<string>)
    ensures |ids| <= |lines|
    decreases |lines|
  {
    if |lines| == 0 then []
    else
      var last := lines[|lines| - 1];
      DeviceIds(lines[..|lines| - 1]) + (if KeptLine(last) then [FirstPiece(last, '\t')] else [])
  }

  /** The parsing loop of `get_available_device` over the command's output. */
  method AvailableDevices(output: string) returns (deviceIds: seq<string>)
    ensures deviceIds == DeviceIds(OutputLines(output))
  {
    var lines := OutputLines(output);
    deviceIds := [];
    var i := 0;
    while i < |lines|
      invariant 0 <= i <= |lines|
      invariant deviceIds == DeviceIds(lines[..i])
    {
      var line := lines[i];
      assert lines[..i + 1][..i] == lines[..i];
      if StartsWith(line, DeviceListHeader) {
        i := i + 1;
        continue;
      }
      if !Contains(line, "offline") {
        var deviceId := FirstPiece(line, '\t');
        deviceIds := deviceIds + [deviceId];
      }
      i := i + 1;
    }
    assert lines[..|lines|] == lines;
  }

  /** Every reported id comes from a kept line, in which it is the text before the first tab. */
  lemma {:induction false} DeviceIdsFromKeptLines(lines: seq<string>, id: string)
    requires id in DeviceIds(lines)
    ensures exists j :: 0 <= j < |lines| && KeptLine(lines[j]) && id == FirstPiece(lines[j], '\t')
    decreases |lines|
  {
    var init := lines[..|lines| - 1];
    var last := lines[|lines| - 1];
    if id in DeviceIds(init) {
      DeviceIdsFromKeptLines(init, id);
      var j :| 0 <= j < |init| && KeptLine(init[j]) && id == FirstPiece(init[j], '\t');
      assert lines[j] == init[j];
    } else {
      assert KeptLine(last) && id == FirstPiece(last, '\t');
    }
  }

  /** The line adb prints for a device: its id, a tab, and its state. */
  function DeviceLine(id: string, state: string): string {
    id + "\t" + state
  }

  function DeviceLines(ids: seq<string>, states: seq<string>): (r: seq<string>)
    requires |ids| == |states|
    ensures |r| == |ids| && forall k :: 0 <= k < |ids| ==> r[k] == DeviceLine(ids[k], states[k])
  {
    seq(|ids|, k requires 0 <= k < |ids| => DeviceLine(ids[k], states[k]))
  }

  /** Well-formed `adb devices` output: the header line, then one line per device. */
  function Listing(ids: seq<string>, states: seq<string>): string
    requires |ids| == |states|
  {
    Join("\n", [DeviceListHeader] + DeviceLines(ids, states))
  }

  /** A device line that parses back to its id. */
  predicate WellFormedDevice(id: string, state: string) {
    && (forall i :: 0 <= i < |id| ==> id[i] != '\t' && id[i] != '\n')
    && (forall i :: 0 <= i < |state| ==> state[i] != '\n')
    && !StartsWith(DeviceLine(id, state), DeviceListHeader)
    && !Contains(DeviceLine(id, state), "offline")
  }

  /**
   * On well-formed output in which no device is offline, the parser returns exactly the
   * listed ids, in order.
   */
  lemma ParseListing(ids: seq<string>, states: seq<string>)
    requires |ids| == |states|
    requires forall k :: 0 <= k < |ids| ==> WellFormedDevice(ids[k], states[k])
    requires |ids| > 0 ==> |states[|ids| - 1]| > 0 && !IsSpace(states[|ids| - 1][|states[|ids| - 1]| - 1])
    ensures DeviceIds(OutputLines(Listing(ids, states))) == ids
  {
    ListingLines(ids, states);
    ListingIds(ids, states);
  }

  /** The lines of a listing are its header and its device lines. */
  lemma ListingLines(ids: seq<string>, states: seq<string>)
    requires |ids| == |states|
    requires forall k :: 0 <= k < |ids| ==> WellFormedDevice(ids[k], states[k])
    requires |ids| > 0 ==> |states[|ids| - 1]| > 0 && !IsSpace(states[|ids| - 1][|states[|ids| - 1]| - 1])
    ensures OutputLines(Listing(ids, states)) == [DeviceListHeader] + DeviceLines(ids, states)
  {
    var lines := [DeviceListHeader] + DeviceLines(ids, states);
    var out := Listing(ids, states);
    assert Strip(out) == out by {
      ListingStripped(ids, states);
    }
    assert forall k, i :: 0 <= k < |lines| && 0 <= i < |lines[k]| ==> lines[k][i] != '\n' by {
      ListingPiecesSingleLine(ids, states, lines);
    }
    LinesOfJoin(out, lines);
  }

  /** The parser drops the header line and keeps each device line's id. */
  lemma ListingIds(ids: seq<string>, states: seq<string>)
    requires |ids| == |states|
    requires forall k :: 0 <= k < |ids| ==> WellFormedDevice(ids[k], states[k])
    ensures DeviceIds([DeviceListHeader] + DeviceLines(ids, states)) == ids
  {
    var dl := DeviceLines(ids, states);
    DeviceIdsOfLines(ids, states, |ids|);
    assert dl[..|ids|] == dl;
    assert ids[..|ids|] == ids;
  }

  /** Output that strip leaves alone and that joins newline-free lines splits back into those lines. */
  lemma LinesOfJoin(out: string, lines: seq<string>)
    requires |lines| >= 1 && out == Join("\n", lines) && Strip(out) == out
    requires forall k, i :: 0 <= k < |lines| && 0 <= i < |lines[k]| ==> lines[k][i] != '\n'
    ensures OutputLines(out) == lines
  {
    JoinSplit(lines, '\n');
  }

  /** Stripping leaves a listing alone. */
  lemma ListingStripped(ids: seq<string>, states: seq<string>)
    requires |ids| == |states|
    requires |ids| > 0 ==> |states[|ids| - 1]| > 0 && !IsSpace(states[|ids| - 1][|states[|ids| - 1]| - 1])
    ensures Strip(Listing(ids, states)) == Listing(ids, states)
  {
    var out := Listing(ids, states);
    ListingLastChar(ids, states);
    assert StripLeft(out) == out;
    assert StripRight(out) == out;
  }

  /** No line of a listing holds a newline. */
  lemma ListingPiecesSingleLine(ids: seq<string>, states: seq<string>, lines: seq<string>)
    requires |ids| == |states|
    requires forall k :: 0 <= k < |ids| ==> WellFormedDevice(ids[k], states[k])
    requires lines == [DeviceListHeader] + DeviceLines(ids, states)
    ensures forall k, i :: 0 <= k < |lines| && 0 <= i < |lines[k]| ==> lines[k][i] != '\n'
  {
    forall k, i | 0 <= k < |lines| && 0 <= i < |lines[k]| ensures lines[k][i] != '\n' {
      if k > 0 {
        DeviceLineSingleLine(ids[k - 1], states[k - 1], i);
      }
    }
  }

  lemma DeviceLineSingleLine(id: string, state: string, i: int)
    requires WellFormedDevice(id, state) && 0 <= i < |DeviceLine(id, state)|
    ensures DeviceLine(id, state)[i] != '\n'
  {
    var line := DeviceLine(id, state);
    if i < |id| {
      assert line[i] == id[i];
    } else if i > |id| {
      assert line[i] == state[i - |id| - 1];
    }
  }

  /** The listing starts with the header's 'L' and ends with the last state's last character. */
  lemma ListingLastChar(ids: seq<string>, states: seq<string>)
    requires |ids| == |states|
    requires |ids| > 0 ==> |states[|ids| - 1]| > 0 && !IsSpace(states[|ids| - 1][|states[|ids| - 1]| - 1])
    ensures var out := Listing(ids, states);
      |out| > 0 && !IsSpace(out[0]) && !IsSpace(out[|out| - 1])
  {
    var lines := [DeviceListHeader] + DeviceLines(ids, states);
    JoinEnds(lines, "\n");
    if |ids| > 0 {
      var last := DeviceLine(ids[|ids| - 1], states[|ids| - 1]);
      assert lines[|lines| - 1] == last;
      assert last[|last| - 1] == states[|ids| - 1][|states[|ids| - 1]| - 1];
    }
  }

  /** A join begins with its first piece and ends with its last. */
  lemma {:induction false} JoinEnds(xs: seq<string>, sep: string)
    requires |xs| >= 1
    ensures var j := Join(sep, xs);
      |j| >= |xs[0]| && |j| >= |xs[|xs| - 1]|
      && j[..|xs[0]|] == xs[0] && j[|j| - |xs[|xs| - 1]|..] == xs[|xs| - 1]
    decreases |xs|
  {
    if |xs| > 1 {
      JoinEnds(xs[1..], sep);
      var rest := Join(sep, xs[1..]);
      var j := Join(sep, xs);
      assert j == xs[0] + (sep + rest);
      assert j[|j| - |rest|..] == rest;
      var l := xs[|xs| - 1];
      assert l == xs[1..][|xs[1..]| - 1];
      assert j[|j| - |l|..] == rest[|rest| - |l|..];
    }
  }

  /** The header line is dropped and each device line gives its id. */
  lemma {:induction false} DeviceIdsOfLines(ids: seq<string>, states: seq<string>, n: nat)
    requires |ids| == |states| && n <= |ids|
    requires forall k :: 0 <= k < |ids| ==> WellFormedDevice(ids[k], states[k])
    ensures DeviceIds([DeviceListHeader] + DeviceLines(ids, states)[..n]) == ids[..n]
    decreases n
  {
    var ls := DeviceLines(ids, states);
    if n == 0 {
      var h := [DeviceListHeader];
      assert h[..0] == [];
      assert StartsWith(DeviceListHeader, DeviceListHeader);
      assert DeviceIds(h) == DeviceIds(h[..0]);
    } else {
      DeviceIdsOfLines(ids, states, n - 1);
      var lines := [DeviceListHeader] + ls[..n];
      assert lines[..|lines| - 1] == [DeviceListHeader] + ls[..n - 1];
      var line := lines[|lines| - 1];
      assert line == DeviceLine(ids[n - 1], states[n - 1]);
      FirstPieceOfLine(ids[n - 1], states[n - 1]);
      assert ids[..n] == ids[..n - 1] + [ids[n - 1]];
    }
  }

  lemma FirstPieceOfLine(id: string, state: string)
    requires forall i :: 0 <= i < |id| ==> id[i] != '\t'
    ensures FirstPiece(DeviceLine(id, state), '\t') == id
  {
    SplitPrefix(id, state, '\t');
    assert DeviceLine(id, state) == id + ['\t'] + state;
  }

  // ---------------------------------------------------------------------------
  // run_test
  // ---------------------------------------------------------------------------

  /** A browser app and the URL one intent should open in it. */
  datatype App = App(packageName: string, activityName: string, testUrl: string)

  /** `s.replace('&', '\&')`: escape every '&' for the device shell. */
  function ShellEscape(s: string): string {
    ReplaceAll(s, "&", "\\&")
  }

  /** Undo the escaping: every `\&` back to '&'. */
  function ShellUnescape(s: string): string {
    ReplaceAll(s, "\\&", "&")
  }

  lemma {:induction false} ShellEscapeHead(s: string)
    requires |s| > 0
    ensures ShellEscape(s) == if s[0] == '&' then "\\&" + ShellEscape(s[1..]) else [s[0]] + ShellEscape(s[1..])
  {
    assert StartsWith(s, "&") <==> s[0] == '&';
  }

  /** Escaping loses nothing: unescaping gives the URL back. */
  lemma {:induction false} ShellEscapeRoundTrip(s: string)
    ensures ShellUnescape(ShellEscape(s)) == s
    decreases |s|
  {
    if |s| > 0 {
      ShellEscapeRoundTrip(s[1..]);
      ShellEscapeHead(s);
      var e := ShellEscape(s[1..]);
      if s[0] == '&' {
        var t := "\\&" + e;
        assert StartsWith(t, "\\&");
        assert t[2..] == e;
      } else {
        var t := [s[0]] + e;
        if |s| > 1 {
          ShellEscapeHead(s[1..]);
          assert e[0] != '&';
        }
        assert |t| < 2 || t[1] != '&' by {
          if |t| >= 2 { assert t[1] == e[0]; }
        }
        assert !StartsWith(t, "\\&");
        assert t[1..] == e;
        assert [s[0]] + s[1..] == s;
      }
    }
  }

  /** The URL with this visit's run id appended (line 198). */
  function RunUrl(testUrl: string, runId: string): string {
    testUrl + "&run_id=" + runId
  }

  /** The `send_url_intent` command that opens `url` in the app on the device. */
  function IntentCommand(deviceId: string, app: App, url: string): Command {
    SendIntent(deviceId, app.packageName, app.activityName, url)
  }

  /** What one `run_test` call did: the AVD name, the intents sent, the apps with their updated URL, the restarts. */
  datatype RunLog = RunLog(avdName: string, commands: seq<Command>, visited: seq<App>, restartsAfter: seq<nat>)

  /**
   * `run_test`: the device id is converted to its AVD name first (a conversion that
   * raises ends the call before any intent), then every app is visited.
   */
  method RunTest(deviceId: string, apps: seq<App>, runIds: seq<string>, autoRestart: bool) returns (r: Result<RunLog>)
    requires |runIds| == |apps|
    ensures r.Err? <==> EmulatorAvdName(deviceId).Err?
    ensures r.Ok? ==> r.value.avdName == EmulatorAvdName(deviceId).value
    ensures r.Ok? ==> VisitsDone(deviceId, apps, runIds, autoRestart, r.value.commands, r.value.visited, r.value.restartsAfter)
  {
    var avd := EmulatorAvdName(deviceId);
    if avd.Err? {
      return Err(avd.error);
    }
    var commands, visited, restarts := VisitApps(deviceId, apps, runIds, autoRestart);
    return Ok(RunLog(avd.value, commands, visited, restarts));
  }

  /**
   * What the visiting loop of `run_test` leaves behind: app k's URL got `&run_id=<id k>`
   * appended, intent k opened that URL with every '&' escaped, and with auto_restart
   * the emulator was restarted after every 100th intent (and never without it).
   */
  ghost predicate VisitsDone(deviceId: string, apps: seq<App>, runIds: seq<string>, autoRestart: bool,
                       commands: seq<Command>, visited: seq<App>, restartsAfter: seq<nat>)
    requires |runIds| == |apps|
  {
    && |commands| == |apps| && |visited| == |apps|
    && (forall k :: 0 <= k < |apps| ==>
      visited[k] == apps[k].(testUrl := RunUrl(apps[k].testUrl, runIds[k]))
      && commands[k] == IntentCommand(deviceId, apps[k], ShellEscape(RunUrl(apps[k].testUrl, runIds[k]))))
    && (forall k: nat :: k in restartsAfter <==> autoRestart && k < |apps| && (k + 1) % 100 == 0)
    && (!autoRestart ==> restartsAfter == [])
  }

  /**
   * The visiting loop of `run_test` (`runIds` stands for the fresh uuid4 hex strings).
   * The counter `run_times` counts intents since the last restart.
   */
  method VisitApps(deviceId: string, apps: seq<App>, runIds: seq<string>, autoRestart: bool)
    returns (commands: seq<Command>, visited: seq<App>, restarts: seq<nat>)
    requires |runIds| == |apps|
    ensures VisitsDone(deviceId, apps, runIds, autoRestart, commands, visited, restarts)
  {
    commands := [];
    visited := [];
    restarts := [];
    var runTimes := 0;
    var i := 0;
    while i < |apps|
      invariant 0 <= i <= |apps|
      invariant |commands| == i && |visited| == i
      invariant runTimes == if autoRestart then i % 100 else i
      invariant forall k :: 0 <= k < i ==>
        visited[k] == apps[k].(testUrl := RunUrl(apps[k].testUrl, runIds[k]))
        && commands[k] == IntentCommand(deviceId, apps[k], ShellEscape(RunUrl(apps[k].testUrl, runIds[k])))
      invariant forall k: nat :: k in restarts <==> autoRestart && k < i && (k + 1) % 100 == 0
      invariant !autoRestart ==> restarts == []
    {
      var app := apps[i];
      runTimes := runTimes + 1;
      app := app.(testUrl := RunUrl(app.testUrl, runIds[i]));
      var encoded := ShellEscape(app.testUrl);
      commands := commands + [IntentCommand(deviceId, apps[i], encoded)];
      visited := visited + [app];
      if runTimes >= RestartEvery && autoRestart {
        runTimes := 0;
        restarts := restarts + [i];
      }
      i := i + 1;
    }
  }
}
