/**
 * Link-liveness supervisor: a two-state machine (Connected / Disconnected)
 * driven by the outcome of one heartbeat poll per call, with a count of
 * consecutive missed heartbeats and a fixed disconnect threshold.
 */
module Heartbeat {

  datatype Status = Connected | Disconnected

  /** Number of consecutive missed heartbeats after which the link is considered lost. */
  const DisconnectThreshold: int := 5

  /** The supervisor's whole state: its status and its missed-heartbeat count. */
  datatype LinkState = LinkState(status: Status, missed: int)

  /** The state a freshly created supervisor is in. */
  const Initial: LinkState := LinkState(Connected, 0)

  /** The derived invariant: Disconnected exactly when the count has reached the threshold. */
  predicate Consistent(s: LinkState) {
    s.missed >= 0 && (s.status == Disconnected <==> s.missed >= DisconnectThreshold)
  }

  /**
   * One poll. A received heartbeat resets the supervisor to Connected with no
   * misses; a miss adds one to the count and switches to Disconnected once the
   * count reaches the threshold, leaving the status alone otherwise.
   */
  function Transition(s: LinkState, received: bool): (r: LinkState)
    ensures received ==> r == Initial
    ensures !received ==> r.missed == s.missed + 1
    ensures !received && r.missed < DisconnectThreshold ==> r.status == s.status
    ensures !received && r.missed >= DisconnectThreshold ==> r.status == Disconnected
    ensures Consistent(s) ==> Consistent(r)
  {
    if received then
      LinkState(Connected, 0)
    else
      var missed := s.missed + 1;
      LinkState(if missed >= DisconnectThreshold then Disconnected else s.status, missed)
  }

  /** The state after the polls `polls`, in order, starting from `s`. */
  function RunAll(s: LinkState, polls: seq<bool>): LinkState
    decreases |polls|
  {
    if |polls| == 0 then s
    else Transition(RunAll(s, polls[..|polls| - 1]), polls[|polls| - 1])
  }

  /** The number of failed polls at the end of `polls` since its last success. */
  function TrailingMisses(polls: seq<bool>): nat
    decreases |polls|
  {
    if |polls| == 0 || polls[|polls| - 1] then 0
    else 1 + TrailingMisses(polls[..|polls| - 1])
  }

  /** The invariant holds after any sequence of polls from a consistent state. */
  lemma {:induction false} RunAllConsistent(s: LinkState, polls: seq<bool>)
    requires Consistent(s)
    ensures Consistent(RunAll(s, polls))
    decreases |polls|
  {
    if |polls| > 0 {
      RunAllConsistent(s, polls[..|polls| - 1]);
    }
  }

  /**
   * From the initial state the missed count is exactly the number of
   * consecutive misses since the last success, and the status is Disconnected
   * exactly when that number has reached the threshold.
   */
  lemma {:induction false} RunAllFromInitial(polls: seq<bool>)
    ensures RunAll(Initial, polls).missed == TrailingMisses(polls)
    ensures RunAll(Initial, polls).status ==
            (if TrailingMisses(polls) >= DisconnectThreshold then Disconnected else Connected)
    decreases |polls|
  {
    if |polls| > 0 {
      RunAllFromInitial(polls[..|polls| - 1]);
    }
  }

  /** A run of misses only: every poll counts. */
  lemma {:induction false} AllMisses(polls: seq<bool>)
    requires forall i :: 0 <= i < |polls| ==> !polls[i]
    ensures TrailingMisses(polls) == |polls|
    decreases |polls|
  {
    if |polls| > 0 {
      AllMisses(polls[..|polls| - 1]);
    }
  }

  /**
   * Hysteresis: four misses in a row leave the link Connected, the fifth
   * disconnects it, and one success restores the initial state.
   */
  lemma Hysteresis()
    ensures RunAll(Initial, [false, false, false, false]) == LinkState(Connected, 4)
    ensures RunAll(Initial, [false, false, false, false, false]) == LinkState(Disconnected, 5)
    ensures RunAll(Initial, [false, false, false, false, false, true]) == Initial
  {
    var four, five := [false, false, false, false], [false, false, false, false, false];
    AllMisses(four);
    AllMisses(five);
    RunAllFromInitial(four);
    RunAllFromInitial(five);
    assert (five + [true])[..5] == five;
  }

  /** The receiving side of the heartbeat link, updated in place on every poll. */
  class HeartbeatReceiver {
    var missedHeartbeats: int
    var status: Status

    function State(): LinkState
      reads this
    {
      LinkState(status, missedHeartbeats)
    }

    ghost predicate Valid()
      reads this
    {
      Consistent(State())
    }

    constructor ()
      ensures Valid()
      ensures State() == Initial
    {
      missedHeartbeats := 0;
      status := Connected;
    }

    /**
     * Applies the outcome of one heartbeat poll (`received` is true when a
     * HEARTBEAT message arrived within the poll's timeout) and returns the
     * status as it stands after the update.
     */
    method Run(received: bool) returns (current: Status)
      modifies this
      ensures State() == Transition(old(State()), received)
      ensures old(Valid()) ==> Valid()
      ensures current == status
    {
      if received {
        missedHeartbeats := 0;
        status := Connected;
      } else {
        missedHeartbeats := missedHeartbeats + 1;
        if missedHeartbeats >= DisconnectThreshold {
          status := Disconnected;
        }
      }
      current := status;
    }
  }
}
