/**
 * app.py, SRT branch: the submitted form starts the receiver, then a countdown
 * loop renders the remaining seconds once per tick and, until it has latched
 * `srt_connected`, asks the manager for the connection status; on the first
 * True it scrapes the log and renders the first endpoint once.
 *
 * The manager's status flag, set by its background thread, is given as the
 * sequence of values `get_connection_status()` returns at each tick, and the
 * log as its text at each tick. Sleeping is left out.
 */
module App {
  import opened Text
  import opened SrtManager

  /** What the form's widgets let through: a port in 9000..9100 and a timeout in 30..600 seconds. */
  predicate SubmittedForm(port: int, timeout: int) {
    9000 <= port <= 9100 && 30 <= timeout <= 600
  }

  /**
   * The widgets' bounds fix the width of the command's fields: the port is written with
   * four digits and the timeout with two or three.
   */
  lemma SubmittedFormFields(port: int, timeout: int)
    requires SubmittedForm(port, timeout)
    ensures |Decimal(port)| == 4
    ensures 2 <= |Decimal(timeout)| <= 3
  {
    assert Pow10(3) == 1000 && Pow10(4) == 10000;
    DecimalWidth(port, 4);
    if timeout < 100 {
      DecimalWidth(timeout, 2);
    } else {
      DecimalWidth(timeout, 3);
    }
  }

  /** `str(srt_mode).lower()` for the only mode the radio button offers. */
  function SubmittedMode(): (mode: string)
    ensures mode == "listener"
  {
    Lower("Listener")
  }

  /** The index of the first True, or `|bs|` when there is none. */
  function FirstTrue(bs: seq<bool>): (k: nat)
    ensures k <= |bs|
    ensures forall j :: 0 <= j < k ==> !bs[j]
    ensures k < |bs| ==> bs[k]
  {
    if bs == [] || bs[0] then 0 else 1 + FirstTrue(bs[1..])
  }

  /**
   * On the first True status: `result = extract_ip_port(log)` and the notice for
   * `result[0]`, or IndexError when the log yields no endpoint.
   */
  method ShowConnected(log: string) returns (crashed: bool, notices: seq<(string, string)>)
    ensures crashed <==> ExtractIpPort(log) == {}
    ensures |notices| == (if crashed then 0 else 1)
    ensures forall p :: p in notices ==> p in ExtractIpPort(log)
  {
    var result := ExtractIpPort(log);
    if result == {} {
      return true, [];
    }
    var first :| first in result;
    return false, [first];
  }

  /**
   * The SRT branch after submission. `status[t]` and `logs[t]` are what
   * `get_connection_status()` returns and what the log holds at tick `t`.
   * Out-parameters: the command started, the counter values rendered, the ticks at
   * which the status was polled, the "connected" notices rendered, the final
   * `srt_connected` and `srt_timeout`, and whether `result[0]` raised IndexError
   * because the log yielded no endpoint (which ends the script run).
   */
  method SrtSession(port: int, timeout: int, status: seq<bool>, logs: seq<string>)
    returns (command: string, rendered: seq<int>, polled: seq<int>,
             notices: seq<(string, string)>, connected: bool, remaining: int, crashed: bool)
    requires SubmittedForm(port, timeout)
    requires |status| == timeout && |logs| == timeout
    ensures command == StartCommand("listener", port, timeout)
    ensures connected <==> FirstTrue(status) < timeout
    ensures crashed <==> connected && ExtractIpPort(logs[FirstTrue(status)]) == {}
    ensures |polled| == (if connected then FirstTrue(status) + 1 else timeout)
    ensures forall i :: 0 <= i < |polled| ==> polled[i] == i
    ensures |notices| == (if connected && !crashed then 1 else 0)
    ensures forall p :: p in notices ==> p in ExtractIpPort(logs[FirstTrue(status)])
    ensures |rendered| == (if crashed then FirstTrue(status) + 1 else timeout)
    ensures forall i :: 0 <= i < |rendered| ==> rendered[i] == timeout - i
    ensures !crashed ==> remaining == 0
  {
    connected := false;
    command := StartCommand(SubmittedMode(), port, timeout);
    rendered, polled, notices, crashed := [], [], [], false;
    ghost var k := FirstTrue(status);
    remaining := timeout;
    while remaining > 0
      invariant 0 <= remaining <= timeout
      invariant |rendered| == timeout - remaining
      invariant forall i :: 0 <= i < |rendered| ==> rendered[i] == timeout - i
      invariant connected <==> k < timeout - remaining
      invariant |polled| == (if k < timeout - remaining then k + 1 else timeout - remaining)
      invariant forall i :: 0 <= i < |polled| ==> polled[i] == i
      invariant |notices| == (if connected then 1 else 0)
      invariant connected ==> forall p :: p in notices ==> p in ExtractIpPort(logs[k])
      invariant connected ==> ExtractIpPort(logs[k]) != {}
      invariant !crashed
    {
      var tick := timeout - remaining;
      rendered := rendered + [remaining];
      if connected {
        remaining := remaining - 1;
        continue;
      }
      polled := polled + [tick];
      if status[tick] {
        connected := true;
        assert tick == k;
        crashed, notices := ShowConnected(logs[tick]);
        if crashed {
          return;
        }
      }
      remaining := remaining - 1;
    }
  }
}
