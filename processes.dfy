/**
 * What the managers see of an external process once the operating system is
 * abstracted away: whether a handle exists and what `poll()` reports, the lines
 * `iter(stdout.readline, "")` delivers, and the verdicts of the one-second
 * connection-polling loops that every manager runs in a background thread.
 */
module Processes {

  /** `self.process`: no handle yet, or a handle whose `poll()` is `None` (running) or an exit code. */
  datatype ProcessState = NoProcess | Running | Exited

  /** `check_if_running`: there is a handle and `poll()` returns `None`. */
  predicate IsRunning(p: ProcessState) {
    p.Running?
  }

  /**
   * The lines `for line in iter(stdout.readline, "")` consumes: `readline()` returns
   * "" only at end of stream, so the loop stops at the first empty string.
   */
  function StdoutLines(chunks: seq<string>): (ls: seq<string>)
    ensures ls <= chunks
    ensures forall i :: 0 <= i < |ls| ==> ls[i] != ""
    ensures |ls| < |chunks| ==> chunks[|ls|] == ""
  {
    if chunks == [] || chunks[0] == "" then [] else [chunks[0]] + StdoutLines(chunks[1..])
  }

  // ---------------------------------------------------------------------------
  // Connection polling.

  /**
   * What one iteration of a `monitor_connection_status` loop sees: the process has
   * exited (the `while` condition fails), reading the artifact raised (the thread
   * dies), the artifact does not show a connection yet (sleep and poll again), or
   * it does (set the flag and `break`).
   */
  datatype Poll = ProcessEnded | ReadFailed | Waiting | Established

  /** The index of the poll at which the loop leaves, or `|polls|` if it is still waiting when the trace ends. */
  function Settle(polls: seq<Poll>): (k: nat)
    ensures k <= |polls|
    ensures forall j :: 0 <= j < k ==> polls[j] == Waiting
    ensures k < |polls| ==> polls[k] != Waiting
  {
    if polls == [] || polls[0] != Waiting then 0 else 1 + Settle(polls[1..])
  }

  /** The loop leaves at the first poll that is not `Waiting`. */
  lemma SettleAt(polls: seq<Poll>, k: nat)
    requires k <= |polls|
    requires forall j :: 0 <= j < k ==> polls[j] == Waiting
    requires k < |polls| ==> polls[k] != Waiting
    ensures Settle(polls) == k
  {
  }

  /** The loop sets `connection_established`. */
  predicate Latches(polls: seq<Poll>) {
    Settle(polls) < |polls| && polls[Settle(polls)] == Established
  }

  /** The poll at index `k` is the one that sets the flag: every earlier poll only waited. */
  ghost predicate LatchesAt(polls: seq<Poll>, k: int) {
    0 <= k < |polls| && polls[k] == Established && forall j :: 0 <= j < k ==> polls[j] == Waiting
  }

  /** The flag is set exactly when some poll shows a connection and every poll before it only waited. */
  lemma LatchesIff(polls: seq<Poll>)
    ensures Latches(polls) <==> exists k :: LatchesAt(polls, k)
  {
    if exists k :: LatchesAt(polls, k) {
      var k :| LatchesAt(polls, k);
      assert Settle(polls) == k;
    }
    if Latches(polls) {
      assert LatchesAt(polls, Settle(polls));
    }
  }

  /**
   * Monotonicity: observing further polls never un-sets the flag, and a loop that has
   * left (exited, failed or connected) is not affected by what happens later.
   */
  lemma {:induction false} SettleStable(polls: seq<Poll>, more: seq<Poll>)
    requires Settle(polls) < |polls|
    ensures Settle(polls + more) == Settle(polls)
    ensures Latches(polls + more) == Latches(polls)
  {
    if polls[0] == Waiting {
      assert (polls + more)[1..] == polls[1..] + more;
      SettleStable(polls[1..], more);
    }
  }
}
