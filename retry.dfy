/**
 * The retry walk of `_openClient`, as a function of the retry budget on entry
 * and of the outcome of each dial: every dial either connects or raises a
 * connection-phase error, which costs one unit of budget; dialling goes on
 * while budget remains.
 */
module Retry {

  /** What one `Net.connect` / `Tls.connect` call comes to. */
  datatype Dial = Connected | Failed

  /**
   * The result of one `_openClient` call: whether the callback got a client,
   * how many dials were made (outcomes consumed), and the budget left.
   */
  datatype Attempt = Attempt(connected: bool, dials: nat, remaining: int)

  /** The dials of an attempt that ended in a connection error. */
  function Failures(a: Attempt): (n: int)
  {
    a.dials - if a.connected then 1 else 0
  }

  /**
   * `_openClient` entered with budget `remaining`, where `outcomes[k]` is the
   * outcome of the k-th dial. An entry with no budget left gives up at once;
   * otherwise it dials, and on an error decrements the budget and redials
   * only while the budget is still positive.
   */
  function Open(remaining: int, outcomes: seq<Dial>): (a: Attempt)
    requires remaining <= |outcomes|
    ensures a.dials <= if remaining > 0 then remaining else 0
    ensures remaining <= 0 ==> a == Attempt(false, 0, remaining)
    ensures remaining > 0 ==> a.dials >= 1 && a.remaining == remaining - Failures(a) && a.remaining >= 0
    ensures a.connected ==> outcomes[a.dials - 1] == Connected
    ensures forall k :: 0 <= k < Failures(a) ==> outcomes[k] == Failed
    ensures !a.connected && remaining > 0 ==> a.dials == remaining && a.remaining == 0
    decreases remaining
  {
    if remaining <= 0 then
      Attempt(false, 0, remaining)
    else if outcomes[0] == Connected then
      Attempt(true, 1, remaining)
    else
      // the 'error' handler: one unit of budget spent, then redial (or give up at zero)
      var rest := Open(remaining - 1, outcomes[1..]);
      FailedPrefix(outcomes, Failures(rest));
      Attempt(rest.connected, rest.dials + 1, rest.remaining)
  }

  /** A failed first dial followed by `n` failed dials is a failed prefix of length `n + 1`. */
  lemma FailedPrefix(outcomes: seq<Dial>, n: int)
    requires |outcomes| >= 1 && outcomes[0] == Failed && n < |outcomes|
    requires forall k :: 0 <= k < n ==> outcomes[1..][k] == Failed
    ensures forall k :: 0 <= k < n + 1 ==> outcomes[k] == Failed
  {
    forall k | 0 < k < n + 1
      ensures outcomes[k] == Failed
    {
      assert outcomes[k] == outcomes[1..][k - 1];
    }
  }

  /** A client is obtained exactly when one of the first `remaining` dials would connect. */
  lemma ConnectedIff(remaining: int, outcomes: seq<Dial>)
    requires remaining <= |outcomes|
    ensures Open(remaining, outcomes).connected <==>
      exists k :: 0 <= k < remaining && outcomes[k] == Connected
  {
    var a := Open(remaining, outcomes);
    if a.connected {
      assert outcomes[a.dials - 1] == Connected;
    }
  }

  /** The client obtained is the one of the first dial that connects. */
  lemma FirstConnection(remaining: int, outcomes: seq<Dial>, j: nat)
    requires remaining <= |outcomes|
    requires j < remaining && outcomes[j] == Connected
    requires forall k :: 0 <= k < j ==> outcomes[k] == Failed
    ensures Open(remaining, outcomes) == Attempt(true, j + 1, remaining - j)
  {
  }

  /** When every dial the budget allows fails, the budget is spent and no client is obtained. */
  lemma Exhausted(remaining: int, outcomes: seq<Dial>)
    requires 0 < remaining <= |outcomes|
    requires forall k :: 0 <= k < remaining ==> outcomes[k] == Failed
    ensures Open(remaining, outcomes) == Attempt(false, remaining, 0)
  {
  }
}
