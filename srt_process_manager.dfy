/**
 * srt_process_manager.py: the SRT receiver supervisor the dashboard uses. It
 * launches `srt-live-transmit` listening on all interfaces, drains the
 * process's stdout into `output`, watches the receiver's log for the word
 * "managed" to latch `connection_established`, and scrapes every `ip:port`
 * pair from the log.
 */
module SrtManager {
  import opened Wrappers
  import opened Text
  import opened Processes
  import opened EndpointPattern

  /** The fixed part of the command line that precedes the session fields. */
  const CommandHead := "srt-live-transmit -fullstats -statspf:csv -stats-report-frequency:1000 "
    + "-statsout:srt/received.ts.stats -loglevel:info -logfile:srt/received.ts.log "

  /** The redirection that ends the command: the received stream goes to a file. */
  const CommandTail := " file://con > srt/received.ts"

  /** The session fields: the timeout, the listening address and port, and the mode. */
  function SessionField(mode: string, port: nat, timeout: nat): string {
    "-to:" + Decimal(timeout) + " srt://0.0.0.0:" + Decimal(port) + "?mode=" + mode
  }

  /**
   * The command line of `start_process(mode, port, timeout)`: the fixed statistics and
   * logging options first, the stream redirected into `srt/received.ts` last.
   */
  function StartCommand(mode: string, port: nat, timeout: nat): (c: string)
    ensures CommandHead <= c
    ensures |CommandTail| <= |c| && c[|c| - |CommandTail|..] == CommandTail
  {
    var c := CommandHead + SessionField(mode, port, timeout) + CommandTail;
    assert c[..|CommandHead|] == CommandHead;
    assert c[|c| - |CommandTail|..] == CommandTail;
    c
  }

  /**
   * The command binds 0.0.0.0 and carries the session fields right after the fixed
   * head; the decimal fields read back as the given timeout and port.
   */
  lemma StartCommandFields(mode: string, port: nat, timeout: nat)
    ensures var field := SessionField(mode, port, timeout);
            var c := StartCommand(mode, port, timeout);
            |CommandHead| + |field| <= |c| && c[|CommandHead|..|CommandHead| + |field|] == field
    ensures ParseDecimal(Decimal(timeout)) == timeout && ParseDecimal(Decimal(port)) == port
  {
    var field := SessionField(mode, port, timeout);
    assert StartCommand(mode, port, timeout) == CommandHead + field + CommandTail;
    DecimalRoundTrip(timeout);
    DecimalRoundTrip(port);
  }

  /** One iteration of the log monitor: `poll()` is `None`, and opening the log gave its text or raised. */
  datatype LogPoll = LogPoll(alive: bool, log: Option<string>)

  function LogVerdict(o: LogPoll): Poll {
    if !o.alive then ProcessEnded
    else match o.log
      case None => ReadFailed
      case Some(text) => if OccursFrom(text, "managed", 0) then Established else Waiting
  }

  function LogVerdicts(trace: seq<LogPoll>): seq<Poll> {
    seq(|trace|, j requires 0 <= j < |trace| => LogVerdict(trace[j]))
  }

  class SrtProcessManager {
    var process: ProcessState
    /** `self.output`: the stdout lines read so far. */
    var output: seq<string>
    var connectionEstablished: bool
    /** How many times `terminate()` has been sent to the handle. */
    var terminateSignals: nat

    constructor ()
      ensures process == NoProcess && output == [] && !connectionEstablished && terminateSignals == 0
    {
      process := NoProcess;
      output := [];
      connectionEstablished := false;
      terminateSignals := 0;
    }

    /** `start_process`: launch the receiver; the two threads are the monitor methods below. */
    method StartProcess(mode: string, port: nat, timeout: nat) returns (command: string)
      modifies this
      ensures command == StartCommand(mode, port, timeout)
      ensures process == Running
      ensures output == old(output) && connectionEstablished == old(connectionEstablished)
      ensures terminateSignals == old(terminateSignals)
    {
      command := StartCommand(mode, port, timeout);
      process := Running;
    }

    /**
     * `monitor_process_output`: append every stdout line to `output`, in read order,
     * when a process exists. `chunks` is what successive `readline()` calls return.
     */
    method MonitorProcessOutput(chunks: seq<string>)
      modifies this
      ensures output == old(output) + if process != NoProcess then StdoutLines(chunks) else []
      ensures GetOutput() == old(GetOutput()) + if process != NoProcess then Concat(StdoutLines(chunks)) else ""
      ensures process == old(process) && connectionEstablished == old(connectionEstablished)
      ensures terminateSignals == old(terminateSignals)
    {
      if process != NoProcess {
        var lines := StdoutLines(chunks);
        var i := 0;
        while i < |lines|
          invariant 0 <= i <= |lines|
          invariant output == old(output) + lines[..i]
          invariant process == old(process) && connectionEstablished == old(connectionEstablished)
          invariant terminateSignals == old(terminateSignals)
        {
          output := output + [lines[i]];
          assert lines[..i + 1] == lines[..i] + [lines[i]];
          i := i + 1;
        }
        assert lines[..i] == lines;
        ConcatAppend(old(output), lines);
      }
    }

    /**
     * `monitor_connection_status`: while the process is alive, read the log; the first
     * read containing "managed" sets the flag and ends the loop. A log that cannot be
     * opened makes `open` raise, which ends the thread without setting the flag.
     */
    method MonitorConnectionStatus(trace: seq<LogPoll>)
      requires process != NoProcess
      modifies this
      ensures connectionEstablished == (old(connectionEstablished) || Latches(LogVerdicts(trace)))
      ensures process == old(process) && output == old(output) && terminateSignals == old(terminateSignals)
    {
      var verdicts := LogVerdicts(trace);
      var i := 0;
      while i < |trace| && trace[i].alive
        invariant 0 <= i <= |trace|
        invariant forall j :: 0 <= j < i ==> verdicts[j] == Waiting
        invariant connectionEstablished == old(connectionEstablished)
        invariant process == old(process) && output == old(output) && terminateSignals == old(terminateSignals)
      {
        match trace[i].log {
          case None =>
            SettleAt(verdicts, i);
            return;
          case Some(logs) =>
            if OccursFrom(logs, "managed", 0) {
              SettleAt(verdicts, i);
              connectionEstablished := true;
              return;
            }
        }
        i := i + 1;
      }
      SettleAt(verdicts, i);
    }

    /** `check_if_running`: False when `process` is None; otherwise whether `poll()` is `None`. */
    function CheckIfRunning(): (r: bool)
      reads this
      ensures process == NoProcess ==> !r
      ensures r <==> IsRunning(process)
    {
      if process != NoProcess then IsRunning(process) else false
    }

    /**
     * `stop_process`: whenever a handle exists, terminate it and `wait()` for its exit,
     * with no liveness check; without a handle, nothing happens.
     */
    method StopProcess()
      modifies this
      ensures process == if old(process) == NoProcess then NoProcess else Exited
      ensures terminateSignals == old(terminateSignals) + if old(process) == NoProcess then 0 else 1
      ensures output == old(output) && connectionEstablished == old(connectionEstablished)
    {
      if process != NoProcess {
        terminateSignals := terminateSignals + 1;
        process := Exited;
      }
    }

    /**
     * `get_output`: the recorded lines joined into one text. When every recorded line
     * ends in a newline, splitting the text into lines gives back exactly those lines.
     */
    function GetOutput(): (r: string)
      reads this
      ensures (forall i :: 0 <= i < |output| ==> IsFullLine(output[i])) ==> Lines(r) == output
    {
      JoinedLines(output);
      Concat(output)
    }

    function GetConnectionStatus(): bool
      reads this
    {
      connectionEstablished
    }
  }

  /** The `(ip, port)` pair of a match, as `re.findall` returns it for a two-group pattern. */
  function Pair(log: string, m: Match): (string, string)
    requires ShapeAt(log, m)
  {
    (Address(log, m), Port(log, m))
  }

  /**
   * `extract_ip_port`: the distinct `(ip, port)` pairs of the non-overlapping,
   * left-to-right matches in the log. Python returns `list(set(...))`, whose order
   * is unspecified, so the model returns the set.
   */
  function ExtractIpPort(log: string): (r: set<(string, string)>)
    ensures r == {} <==> Search(log, 0).None?
  {
    PairsEmptyIff(log);
    Pairs(log, FindAll(log, 0))
  }

  /**
   * Every pair is a dotted-quad address with a non-empty all-digit port; the set is
   * empty exactly when the log holds no match; and the leftmost match's pair (the one
   * `extract_connected_ip_port` reports) is always among them.
   */
  lemma ExtractIpPortSpec(log: string)
    ensures forall p :: p in ExtractIpPort(log) ==> DottedQuad(p.0) && p.1 != [] && AllDigits(p.1)
    ensures ExtractIpPort(log) == {} <==> NoMatchIn(log, 0, |log| + 1)
    ensures Search(log, 0).Some? ==> Pair(log, Search(log, 0).value) in ExtractIpPort(log)
  {
    PairsWellFormed(log, FindAll(log, 0));
    PairsEmptyIff(log);
  }

  /** The set of pairs of a list of matches. */
  function Pairs(log: string, ms: seq<Match>): set<(string, string)>
    requires forall m :: m in ms ==> ShapeAt(log, m)
  {
    set m | m in ms :: Pair(log, m)
  }

  lemma PairsEmptyIff(log: string)
    ensures Pairs(log, FindAll(log, 0)) == {} <==> NoMatchIn(log, 0, |log| + 1)
    ensures Search(log, 0).Some? ==> Pair(log, Search(log, 0).value) in Pairs(log, FindAll(log, 0))
  {
    var ms := FindAll(log, 0);
    FindAllLeftmost(log, 0);
    if ms == [] {
      assert Search(log, 0).None?;
    } else {
      var m := ms[0];
      assert m == Search(log, 0).value;
      assert Pair(log, m) in Pairs(log, ms);
      assert MatchesAt(log, m.start);
    }
  }

  lemma PairsWellFormed(log: string, ms: seq<Match>)
    requires forall m :: m in ms ==> ShapeAt(log, m)
    ensures forall p :: p in Pairs(log, ms) ==> DottedQuad(p.0) && p.1 != [] && AllDigits(p.1)
  {
    forall m | m in ms
      ensures DottedQuad(Pair(log, m).0) && Pair(log, m).1 != [] && AllDigits(Pair(log, m).1)
    {
      GroupsWellFormed(log, m);
    }
  }
}
