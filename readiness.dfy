/** The readiness wait of `generateApiDocs`: probe the docs URL once per
    poll interval until a status below `MAX_HTTP_STATUS_CODE` comes back,
    retrying on a refused connection, giving up when the wait is over and
    letting every other exception escape. Time is abstracted to a budget of
    attempts (one per one-second poll interval) and the server's answers to a
    finite sequence of probe outcomes. */
module Readiness {

  /** The first status code that does not count as ready. */
  const MAX_HTTP_STATUS_CODE: int := 299

  /** What one probe (a connection, then a read of the status code) produced. */
  datatype Probe =
    | Refused                   // java.net.ConnectException, ignored by the wait
    | Status(code: int)         // a response arrived with this status code
    | OtherError(cause: string) // any other exception thrown while probing

  /** How the wait ended. */
  datatype PollOutcome =
    | Ready(attempt: nat)       // the probe with this index was ready
    | Escaped(cause: string)    // a non-ignored exception ended the wait
    | TimedOut                  // the wait ran out (ConditionTimeoutException)

  /** The poll condition: the status is below 299. */
  predicate IsReadyStatus(code: int) {
    code < MAX_HTTP_STATUS_CODE
  }

  /** A probe after which the wait goes on polling. */
  predicate KeepsPolling(p: Probe) {
    p.Refused? || (p.Status? && !IsReadyStatus(p.code))
  }

  /** A probe that ends the wait as ready. */
  predicate IsReadyProbe(p: Probe) {
    p.Status? && IsReadyStatus(p.code)
  }

  /** The wait from attempt `i` on, with `budget` attempts in all. */
  function PollFrom(probes: seq<Probe>, budget: nat, i: nat): PollOutcome
    decreases |probes| - i
  {
    if i >= budget || i >= |probes| then TimedOut
    else match probes[i]
      case Refused => PollFrom(probes, budget, i + 1)
      case Status(code) => if IsReadyStatus(code) then Ready(i) else PollFrom(probes, budget, i + 1)
      case OtherError(cause) => Escaped(cause)
  }

  /** The whole wait. */
  function PollSpec(probes: seq<Probe>, budget: nat): PollOutcome {
    PollFrom(probes, budget, 0)
  }

  /** The polling loop. */
  method Poll(probes: seq<Probe>, budget: nat) returns (r: PollOutcome)
    ensures r == PollSpec(probes, budget)
  {
    var i := 0;
    while i < budget && i < |probes|
      invariant 0 <= i
      invariant PollFrom(probes, budget, i) == PollSpec(probes, budget)
      decreases |probes| - i
    {
      match probes[i]
      case Refused =>
        i := i + 1;
      case Status(code) =>
        if code < MAX_HTTP_STATUS_CODE {
          return Ready(i);
        }
        i := i + 1;
      case OtherError(cause) =>
        return Escaped(cause);
    }
    return TimedOut;
  }

  // ---------------------------------------------------------------------
  // What each outcome means.

  lemma {:induction false} PollFromReady(probes: seq<Probe>, budget: nat, i: nat, k: nat)
    ensures PollFrom(probes, budget, i) == Ready(k) <==>
      i <= k < budget && k < |probes| && IsReadyProbe(probes[k]) &&
      forall j :: i <= j < k ==> KeepsPolling(probes[j])
    decreases |probes| - i
  {
    if i < budget && i < |probes| {
      PollFromReady(probes, budget, i + 1, k);
    }
  }

  lemma {:induction false} PollFromEscaped(probes: seq<Probe>, budget: nat, i: nat, cause: string)
    ensures PollFrom(probes, budget, i) == Escaped(cause) <==>
      exists k :: i <= k < budget && k < |probes| && probes[k] == OtherError(cause) &&
        forall j :: i <= j < k ==> KeepsPolling(probes[j])
    decreases |probes| - i
  {
    if i < budget && i < |probes| {
      PollFromEscaped(probes, budget, i + 1, cause);
      if PollFrom(probes, budget, i) == Escaped(cause) && probes[i] == OtherError(cause) {
        assert i <= i < budget && i < |probes| && probes[i] == OtherError(cause);
      }
    }
  }

  lemma {:induction false} PollFromTimedOut(probes: seq<Probe>, budget: nat, i: nat)
    ensures PollFrom(probes, budget, i) == TimedOut <==>
      forall j :: i <= j < budget && j < |probes| ==> KeepsPolling(probes[j])
    decreases |probes| - i
  {
    if i < budget && i < |probes| {
      PollFromTimedOut(probes, budget, i + 1);
    }
  }

  /** The wait is ready at attempt `k` iff probe `k` returned a status below
      299, and every earlier probe was refused or returned a status of 299
      or more. */
  lemma PollReadyIff(probes: seq<Probe>, budget: nat, k: nat)
    ensures PollSpec(probes, budget) == Ready(k) <==>
      k < budget && k < |probes| && IsReadyProbe(probes[k]) &&
      forall j :: 0 <= j < k ==> KeepsPolling(probes[j])
  {
    PollFromReady(probes, budget, 0, k);
  }

  /** A probe exception other than a refused connection ends the wait at
      once, provided every earlier probe kept the wait going. */
  lemma PollEscapesIff(probes: seq<Probe>, budget: nat, cause: string)
    ensures PollSpec(probes, budget) == Escaped(cause) <==>
      exists k :: 0 <= k < budget && k < |probes| && probes[k] == OtherError(cause) &&
        forall j :: 0 <= j < k ==> KeepsPolling(probes[j])
  {
    PollFromEscaped(probes, budget, 0, cause);
  }

  /** The wait times out iff every probe within the budget kept it going. */
  lemma PollTimesOutIff(probes: seq<Probe>, budget: nat)
    ensures PollSpec(probes, budget) == TimedOut <==>
      forall j :: 0 <= j < budget && j < |probes| ==> KeepsPolling(probes[j])
  {
    PollFromTimedOut(probes, budget, 0);
  }

  /** Status 299 and every redirect or error status keep the wait polling. */
  lemma StatusBoundary(code: int)
    ensures KeepsPolling(Status(code)) <==> code >= 299
    ensures IsReadyProbe(Status(code)) <==> code <= 298
  {
  }
}
