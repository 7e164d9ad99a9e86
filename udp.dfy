/**
 * The broadcast loop shared by the advertiser and the legacy script: every
 * tick sends one datagram inside `try/except Exception`, then sleeps.
 *
 * Sockets and timing are outside the model. A tick's only observable effect
 * is an attempt record; whether the operating system accepts a well-formed
 * `sendto` is an input, one boolean per tick.
 */
module Udp {
  import opened Wrappers
  import Bytes

  /** One `sendto(msg, ('<broadcast>', port))`: the bytes, the port asked for, and whether the datagram left. */
  datatype Attempt = Attempt(payload: seq<Bytes.byte>, port: Option<int>, delivered: bool)

  /**
   * A port `sendto` accepts in an address tuple. `None` raises TypeError and an
   * integer outside 0..65535 raises OverflowError, both before anything is sent.
   */
  predicate Addressable(port: Option<int>)
  {
    port.Some? && 0 <= port.value < 0x10000
  }

  function Min(a: nat, b: nat): nat { if a < b then a else b }

  /**
   * Runs the loop for as many ticks as `accepted` describes. A failed send is
   * swallowed and the next tick sends again. When the sleep after a send
   * raises (`sleepReturns` false: a null interval, or a negative one for
   * `time.sleep`), the loop ends after its first tick.
   */
  method SendLoop(payload: seq<Bytes.byte>, port: Option<int>, sleepReturns: bool, accepted: seq<bool>)
    returns (log: seq<Attempt>)
    ensures |log| == if sleepReturns then |accepted| else Min(1, |accepted|)
    ensures forall k :: 0 <= k < |log| ==> log[k].payload == payload && log[k].port == port
    ensures forall k :: 0 <= k < |log| ==> log[k].delivered == (Addressable(port) && accepted[k])
  {
    log := [];
    var i := 0;
    while i < |accepted|
      invariant 0 <= i <= |accepted|
      invariant |log| == i
      invariant !sleepReturns ==> i == 0
      invariant forall k :: 0 <= k < i ==> log[k] == Attempt(payload, port, Addressable(port) && accepted[k])
    {
      var delivered := false;
      if Addressable(port) {
        delivered := accepted[i];
      }
      log := log + [Attempt(payload, port, delivered)];
      i := i + 1;
      if !sleepReturns {
        break;
      }
    }
  }
}
