/**
 * process_manager.py: a generic process manager (launch handle, liveness,
 * termination) and two specialisations, one that runs the traffic-statistics
 * tool over a capture file and one that supervises an SRT receiver. Python's
 * inheritance is modelled by composition: each specialisation owns a `base`
 * ProcessManager holding the inherited `process` attribute.
 *
 * Threads, `time.sleep` and the filesystem are abstracted: a background loop
 * becomes a method consuming the finite trace of what it would observe, and a
 * file becomes a string.
 */
module Managers {
  import opened Wrappers
  import opened Text
  import opened Processes
  import opened EndpointPattern

  class ProcessManager {
    var process: ProcessState
    /** How many times `terminate()` has been sent to the handle. */
    var terminateSignals: nat

    constructor ()
      ensures process == NoProcess && terminateSignals == 0
    {
      process := NoProcess;
      terminateSignals := 0;
    }

    /** `check_if_running`: False without a handle; otherwise whether `poll()` is `None`. */
    function CheckIfRunning(): (r: bool)
      reads this
      ensures process == NoProcess ==> !r
      ensures r <==> IsRunning(process)
    {
      if process != NoProcess then IsRunning(process) else false
    }

    /**
     * `stop_process`: terminate only a running process. `terminate()` only sends
     * the signal; the exit is observed later, so the handle's state is unchanged.
     */
    method StopProcess()
      modifies this
      ensures process == old(process)
      ensures terminateSignals == old(terminateSignals) + if old(CheckIfRunning()) then 1 else 0
    {
      if process != NoProcess && CheckIfRunning() {
        terminateSignals := terminateSignals + 1;
      }
    }

    /** `subprocess.Popen(...)` as called by the specialisations' `start_process`. */
    method Launch()
      modifies this
      ensures process == Running && terminateSignals == old(terminateSignals)
    {
      process := Running;
    }
  }

  // ---------------------------------------------------------------------------
  // LibTcpDumpManager

  class LibTcpDumpManager {
    const base: ProcessManager
    /** Contents of `./pcaps/result.processed`. */
    var results: string

    constructor (existing: string)
      ensures fresh(base) && base.process == NoProcess && base.terminateSignals == 0
      ensures results == existing
    {
      base := new ProcessManager();
      results := existing;
    }

    /** `start_process(file)`: launch the traffic-statistics tool on the uploaded capture. */
    method StartProcess(fileName: string) returns (command: string)
      modifies base
      ensures base.process == Running && base.terminateSignals == old(base.terminateSignals)
      ensures command == "get-traffic-stats --overwrite --side rcv pcaps/" + fileName
    {
      command := "get-traffic-stats --overwrite --side rcv pcaps/" + fileName;
      base.Launch();
    }

    /**
     * `redirect_output_to_file`: truncate the results file, then copy each stdout
     * line into it while a process exists. `chunks` is what successive
     * `readline()` calls return.
     */
    method RedirectOutputToFile(chunks: seq<string>)
      modifies this
      ensures results == if base.process != NoProcess then Concat(StdoutLines(chunks)) else ""
    {
      results := "";
      if base.process != NoProcess {
        var lines := StdoutLines(chunks);
        var i := 0;
        while i < |lines|
          invariant 0 <= i <= |lines|
          invariant results == Concat(lines[..i])
        {
          ConcatAppend(lines[..i], [lines[i]]);
          assert lines[..i + 1] == lines[..i] + [lines[i]];
          results := results + lines[i];
          i := i + 1;
        }
        assert lines[..i] == lines;
      }
    }

    /** `get_output`: the results file without its first two lines ("" when it has at most two). */
    function GetOutput(): (r: string)
      reads this
      ensures |Lines(results)| <= 2 ==> r == ""
      ensures var ls := Lines(results);
              Concat(ls[..if |ls| <= 2 then |ls| else 2]) + r == results
    {
      DropLinesSuffix(results, 2);
      DropLines(results, 2)
    }
  }

  // ---------------------------------------------------------------------------
  // SrtProcessManager

  /** One iteration of the stats monitor: `poll()` is `None`, and `os.stat` gave a size or raised. */
  datatype StatsPoll = StatsPoll(alive: bool, statsSize: Option<nat>)

  function StatsVerdict(o: StatsPoll): Poll {
    if !o.alive then ProcessEnded
    else match o.statsSize
      case None => ReadFailed
      case Some(size) => if size != 0 then Established else Waiting
  }

  function StatsVerdicts(trace: seq<StatsPoll>): seq<Poll> {
    seq(|trace|, j requires 0 <= j < |trace| => StatsVerdict(trace[j]))
  }

  /** The statistics and logging options of the receiver command. */
  const SupervisorOptions := " -fullstats -statspf:csv -stats-report-frequency:100 "
    + "-statsout:srt/received.ts.stats -loglevel:info -logfile:srt/received.ts.log "

  /** The session fields: the timeout, the peer address and port, and the mode. */
  function SupervisorField(mode: string, port: nat, timeout: nat, ip: string): string {
    "-to:" + Decimal(timeout) + " srt://" + ip + ":" + Decimal(port) + "?mode=" + mode
  }

  /**
   * The receiver command line of `start_process`: the versioned binary first, the stream
   * redirected into `srt/received.ts` last.
   */
  function SupervisorCommand(version: string, mode: string, port: nat, timeout: nat, ip: string): (c: string)
    ensures "srt-live-transmit-v" + version <= c
    ensures 29 <= |c| && c[|c| - 29..] == " file://con > srt/received.ts"
  {
    var c := "srt-live-transmit-v" + version + SupervisorOptions + SupervisorField(mode, port, timeout, ip)
      + " file://con > srt/received.ts";
    assert c[..19 + |version|] == "srt-live-transmit-v" + version;
    assert c[|c| - 29..] == " file://con > srt/received.ts";
    c
  }

  /**
   * The session fields follow the version and the fixed options, in the order timeout,
   * address, port, mode; the decimal fields read back as the given timeout and port.
   */
  lemma SupervisorCommandFields(version: string, mode: string, port: nat, timeout: nat, ip: string)
    ensures var at := 19 + |version| + |SupervisorOptions|;
            var field := SupervisorField(mode, port, timeout, ip);
            var c := SupervisorCommand(version, mode, port, timeout, ip);
            at + |field| <= |c| && c[at..at + |field|] == field
    ensures ParseDecimal(Decimal(timeout)) == timeout && ParseDecimal(Decimal(port)) == port
  {
    var head := "srt-live-transmit-v" + version + SupervisorOptions;
    var field := SupervisorField(mode, port, timeout, ip);
    assert SupervisorCommand(version, mode, port, timeout, ip) == head + field + " file://con > srt/received.ts";
    DecimalRoundTrip(timeout);
    DecimalRoundTrip(port);
  }

  class SrtProcessManager {
    const base: ProcessManager
    var connectionEstablished: bool

    constructor ()
      ensures fresh(base) && base.process == NoProcess && base.terminateSignals == 0
      ensures !connectionEstablished
    {
      base := new ProcessManager();
      connectionEstablished := false;
    }

    /** `start_process`: launch the receiver; the monitor thread is `MonitorConnectionStatus`. */
    method StartProcess(version: string, mode: string, port: nat, timeout: nat, ip: string)
      returns (command: string)
      modifies base
      ensures base.process == Running && base.terminateSignals == old(base.terminateSignals)
      ensures command == SupervisorCommand(version, mode, port, timeout, ip)
    {
      command := SupervisorCommand(version, mode, port, timeout, ip);
      base.Launch();
    }

    /**
     * `monitor_connection_status`: while the process is alive, poll the stats file's
     * size; the first non-zero size sets the flag and ends the loop. A missing stats
     * file makes `os.stat` raise, which ends the thread without setting the flag.
     */
    method MonitorConnectionStatus(trace: seq<StatsPoll>)
      requires base.process != NoProcess
      modifies this
      ensures connectionEstablished == (old(connectionEstablished) || Latches(StatsVerdicts(trace)))
    {
      var verdicts := StatsVerdicts(trace);
      var i := 0;
      while i < |trace| && trace[i].alive
        invariant 0 <= i <= |trace|
        invariant forall j :: 0 <= j < i ==> verdicts[j] == Waiting
        invariant connectionEstablished == old(connectionEstablished)
      {
        match trace[i].statsSize {
          case None =>
            SettleAt(verdicts, i);
            return;
          case Some(size) =>
            if size != 0 {
              SettleAt(verdicts, i);
              connectionEstablished := true;
              return;
            }
        }
        i := i + 1;
      }
      SettleAt(verdicts, i);
    }

    function GetConnectionStatus(): bool
      reads this
    {
      connectionEstablished
    }
  }

  // ---------------------------------------------------------------------------
  // Log scraping and probe decisions.

  const NoHostError := "error: unable to determine connected host"

  /** `extract_connected_ip_port`: the leftmost `ip:port` occurrence in the log, or the error string. */
  function ExtractConnectedIpPort(log: string): (r: string)
    ensures r == NoHostError <==> NoMatchIn(log, 0, |log| + 1)
    ensures r != NoHostError ==> exists m :: LeftmostFrom(log, 0, m) && r == log[m.start..m.end]
  {
    match Search(log, 0)
    case Some(m) =>
      MatchText(log, m);
      assert MatchesAt(log, m.start);
      Address(log, m) + ":" + Port(log, m)
    case None => NoHostError
  }

  /** The reported `"ip:port"` is the matched text itself, and it cannot be mistaken for the error string. */
  lemma MatchText(log: string, m: Match)
    requires ShapeAt(log, m)
    ensures Address(log, m) + ":" + Port(log, m) == log[m.start..m.end]
    ensures log[m.start..m.end] != NoHostError
  {
    assert log[m.start..m.end] == log[m.start..m.colon] + [log[m.colon]] + log[m.colon + 1..m.end];
    assert log[m.start..m.end][0] == log[m.start];
    assert IsDigit(log[m.start]);
    assert NoHostError[0] == 'e';
  }

  /** Octets are not range-checked: any four digit runs and a port digit run are reported verbatim. */
  lemma AnyDigitRunsAccepted(a: string, b: string, c: string, d: string, port: string, rest: string)
    requires a != [] && b != [] && c != [] && d != [] && port != []
    requires AllDigits(a) && AllDigits(b) && AllDigits(c) && AllDigits(d) && AllDigits(port)
    requires rest == [] || !IsDigit(rest[0])
    ensures var w := a + "." + b + "." + c + "." + d + ":" + port;
            ExtractConnectedIpPort(w + rest) == w
  {
    var w := a + "." + b + "." + c + "." + d + ":" + port;
    var s := w + rest;
    var d1 := |a|;
    var d2 := d1 + 1 + |b|;
    var d3 := d2 + 1 + |c|;
    var co := d3 + 1 + |d|;
    var e := co + 1 + |port|;
    assert |w| == e;
    assert s[..e] == w;
    assert w[..d1] == a;
    assert w[d1 + 1..d2] == b;
    assert w[d2 + 1..d3] == c;
    assert w[d3 + 1..co] == d;
    assert w[co + 1..] == port;
    assert w[d1] == '.' && w[d2] == '.' && w[d3] == '.' && w[co] == ':';
    SliceDigits(s, w, 0, d1);
    SliceDigits(s, w, d1 + 1, d2);
    SliceDigits(s, w, d2 + 1, d3);
    SliceDigits(s, w, d3 + 1, co);
    SliceDigits(s, w, co + 1, e);
    assert e == |s| || s[e] == rest[0];
    var m := Match(0, d1, d2, d3, co, e);
    assert ShapeAt(s, m);
    ScanFinds(s, m);
    assert Search(s, 0) == Some(m);
    MatchText(s, m);
  }

  lemma SliceDigits(s: string, w: string, lo: nat, hi: nat)
    requires w <= s && lo < hi <= |w|
    requires AllDigits(w[lo..hi])
    ensures DigitsIn(s, lo, hi)
  {
    forall k | lo <= k < hi
      ensures IsDigit(s[k])
    {
      assert s[k] == w[lo..hi][k - lo];
    }
  }

  /** JSON as `json.loads` returns it (numbers are kept as integers). */
  datatype Json =
    | JNull
    | JBool(b: bool)
    | JNumber(n: int)
    | JString(str: string)
    | JArray(items: seq<Json>)
    | JObject(fields: map<string, Json>)

  /** What `json.loads(result.stdout)` makes of ffprobe's output: a top-level object, or a `JSONDecodeError`. */
  datatype ProbeOutput = Unparsable | Parsed(top: map<string, Json>)

  /** The reported container format is MPEG-TS. */
  predicate ReportsMpegTs(top: map<string, Json>) {
    && "format" in top && top["format"].JObject?
    && "format_name" in top["format"].fields
    && top["format"].fields["format_name"] == JString("mpegts")
  }

  /**
   * `check_for_valid_mpeg_ts`: True if the format name is "mpegts", False when the
   * output parses but the key is missing or names another format, None when the
   * output cannot be parsed.
   */
  function CheckForValidMpegTs(probe: ProbeOutput): (r: Option<bool>)
    ensures r == None <==> probe.Unparsable?
    ensures r == Some(true) <==> probe.Parsed? && ReportsMpegTs(probe.top)
    ensures r == Some(false) <==> probe.Parsed? && !ReportsMpegTs(probe.top)
  {
    match probe
    case Unparsable => None
    case Parsed(output) =>
      if "format" in output && output["format"].JObject? && "format_name" in output["format"].fields then
        if output["format"].fields["format_name"] == JString("mpegts") then Some(true) else Some(false)
      else Some(false)
  }

  /** `show_mpeg_ts_programs`: the whole parsed object when it has a "programs" key, otherwise None. */
  function ShowMpegTsPrograms(probe: ProbeOutput): (r: Option<map<string, Json>>)
    ensures r.Some? <==> probe.Parsed? && "programs" in probe.top
    ensures r.Some? ==> r.value == probe.top
  {
    match probe
    case Unparsable => None
    case Parsed(output) => if "programs" in output then Some(output) else None
  }
}
