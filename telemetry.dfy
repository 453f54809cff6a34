/**
 * Telemetry fusion: within a time budget, poll the link for the first
 * LOCAL_POSITION_NED and the first ATTITUDE message and fuse the two into one
 * TelemetryData record, or report a timeout.
 *
 * The clock is replaced by the sequence of poll results the loop sees: one
 * entry per loop iteration that starts inside the budget, each holding what a
 * non-blocking receive of each message kind returns in that iteration.
 */
module Telemetry {
  import opened Wrappers

  /** The fields of a LOCAL_POSITION_NED message that the fusion reads. */
  datatype PositionMsg = PositionMsg(
    timeBootMs: int, x: real, y: real, z: real, vx: real, vy: real, vz: real)

  /** The fields of an ATTITUDE message that the fusion reads. */
  datatype AttitudeMsg = AttitudeMsg(
    timeBootMs: int, roll: real, pitch: real, yaw: real,
    rollSpeed: real, pitchSpeed: real, yawSpeed: real)

  /** A decoded message as the link hands it over, tagged with its type. */
  datatype Message =
    | LocalPositionNed(position: PositionMsg)
    | Attitude(attitude: AttitudeMsg)
    | OtherMessage(kind: string)

  /**
   * What one loop iteration's two receives return: the reply to the request
   * for a LOCAL_POSITION_NED message and the reply to the request for an
   * ATTITUDE message (None when nothing was waiting).
   */
  datatype Poll = Poll(position: Option<Message>, attitude: Option<Message>)

  /** A telemetry record; every field is independently optional. */
  datatype TelemetryData = TelemetryData(
    timeSinceBoot: Option<int>,
    x: Option<real>, y: Option<real>, z: Option<real>,
    xVelocity: Option<real>, yVelocity: Option<real>, zVelocity: Option<real>,
    roll: Option<real>, pitch: Option<real>, yaw: Option<real>,
    rollSpeed: Option<real>, pitchSpeed: Option<real>, yawSpeed: Option<real>)

  /** A record in which every field is present. */
  predicate Complete(d: TelemetryData) {
    && d.timeSinceBoot.Some? && d.x.Some? && d.y.Some? && d.z.Some?
    && d.xVelocity.Some? && d.yVelocity.Some? && d.zVelocity.Some?
    && d.roll.Some? && d.pitch.Some? && d.yaw.Some?
    && d.rollSpeed.Some? && d.pitchSpeed.Some? && d.yawSpeed.Some?
  }

  /** A reply is kept only if it is present and really is a LOCAL_POSITION_NED message. */
  function AcceptPosition(reply: Option<Message>): Option<PositionMsg> {
    if reply.Some? && reply.value.LocalPositionNed? then Some(reply.value.position) else None
  }

  /** A reply is kept only if it is present and really is an ATTITUDE message. */
  function AcceptAttitude(reply: Option<Message>): Option<AttitudeMsg> {
    if reply.Some? && reply.value.Attitude? then Some(reply.value.attitude) else None
  }

  /** The position messages the polls deliver, iteration by iteration. */
  function PositionReplies(polls: seq<Poll>): seq<Option<PositionMsg>> {
    seq(|polls|, i requires 0 <= i < |polls| => AcceptPosition(polls[i].position))
  }

  /** The attitude messages the polls deliver, iteration by iteration. */
  function AttitudeReplies(polls: seq<Poll>): seq<Option<AttitudeMsg>> {
    seq(|polls|, i requires 0 <= i < |polls| => AcceptAttitude(polls[i].attitude))
  }

  /** The first present element of `s`, if any. */
  function FirstSome<T>(s: seq<Option<T>>): Option<T>
    decreases |s|
  {
    if |s| == 0 then None
    else if s[0].Some? then s[0]
    else FirstSome(s[1..])
  }

  /** Fuses one position and one attitude message into a telemetry record. */
  function Combine(p: PositionMsg, a: AttitudeMsg): (d: TelemetryData)
    ensures Complete(d)
    ensures d.timeSinceBoot == Some(p.timeBootMs)
  {
    TelemetryData(
      timeSinceBoot := Some(p.timeBootMs),
      x := Some(p.x), y := Some(p.y), z := Some(p.z),
      xVelocity := Some(p.vx), yVelocity := Some(p.vy), zVelocity := Some(p.vz),
      roll := Some(a.roll), pitch := Some(a.pitch), yaw := Some(a.yaw),
      rollSpeed := Some(a.rollSpeed), pitchSpeed := Some(a.pitchSpeed), yawSpeed := Some(a.yawSpeed))
  }

  /** The position fields of a record, as a position message stamped with its time. */
  function PositionPart(d: TelemetryData): Option<PositionMsg> {
    if d.timeSinceBoot.Some? && d.x.Some? && d.y.Some? && d.z.Some?
       && d.xVelocity.Some? && d.yVelocity.Some? && d.zVelocity.Some?
    then Some(PositionMsg(d.timeSinceBoot.value, d.x.value, d.y.value, d.z.value,
                          d.xVelocity.value, d.yVelocity.value, d.zVelocity.value))
    else None
  }

  /** The attitude fields of a record, stamped with the time `t`. */
  function AttitudePart(d: TelemetryData, t: int): Option<AttitudeMsg> {
    if d.roll.Some? && d.pitch.Some? && d.yaw.Some?
       && d.rollSpeed.Some? && d.pitchSpeed.Some? && d.yawSpeed.Some?
    then Some(AttitudeMsg(t, d.roll.value, d.pitch.value, d.yaw.value,
                          d.rollSpeed.value, d.pitchSpeed.value, d.yawSpeed.value))
    else None
  }

  /**
   * What one attempt yields: the record fused from the first position message
   * and the first attitude message among the polls, or None (a timeout) when
   * either kind never arrives.
   */
  function Fuse(polls: seq<Poll>): Option<TelemetryData> {
    var p, a := FirstSome(PositionReplies(polls)), FirstSome(AttitudeReplies(polls));
    if p.Some? && a.Some? then Some(Combine(p.value, a.value)) else None
  }

  // ---------------------------------------------------------------------------
  // Properties of the first-arrival rule

  /** Extending the polls by one iteration changes the first arrival only when there was none. */
  lemma {:induction false} FirstSomeSnoc<T>(s: seq<Option<T>>, x: Option<T>)
    ensures FirstSome(s + [x]) == if FirstSome(s).Some? then FirstSome(s) else x
    decreases |s|
  {
    if |s| > 0 {
      assert (s + [x])[1..] == s[1..] + [x];
      FirstSomeSnoc(s[1..], x);
    }
  }

  /** Once something has arrived, later polls never overwrite it. */
  lemma {:induction false} FirstSomeAppend<T>(s: seq<Option<T>>, t: seq<Option<T>>)
    requires FirstSome(s).Some?
    ensures FirstSome(s + t) == FirstSome(s)
    decreases |s|
  {
    if !s[0].Some? {
      assert (s + t)[1..] == s[1..] + t;
      FirstSomeAppend(s[1..], t);
    }
  }

  /** An empty reply in the middle of the polls changes nothing. */
  lemma {:induction false} FirstSomeSkipsNone<T>(s: seq<Option<T>>, t: seq<Option<T>>)
    ensures FirstSome(s + [None] + t) == FirstSome(s + t)
    decreases |s|
  {
    if |s| == 0 {
      assert (s + [None] + t)[1..] == t;
      assert s + t == t;
    } else {
      assert (s + [None] + t)[1..] == s[1..] + [None] + t;
      assert (s + t)[1..] == s[1..] + t;
      FirstSomeSkipsNone(s[1..], t);
    }
  }

  /** FirstSome returns the element at the first index that holds one, in both directions. */
  lemma {:induction false} FirstSomeIsFirst<T>(s: seq<Option<T>>, v: T)
    ensures FirstSome(s) == Some(v) <==>
            exists i :: 0 <= i < |s| && s[i] == Some(v) && forall j :: 0 <= j < i ==> s[j].None?
    decreases |s|
  {
    if |s| > 0 {
      FirstSomeIsFirst(s[1..], v);
      if FirstSome(s) == Some(v) && s[0].None? {
        var i :| 0 <= i < |s| - 1 && s[1..][i] == Some(v) && forall j :: 0 <= j < i ==> s[1..][j].None?;
        assert s[i + 1] == Some(v);
        assert forall j :: 0 <= j < i + 1 ==> s[j].None? by {
          forall j | 0 <= j < i + 1 ensures s[j].None? {
            if j > 0 { assert s[j] == s[1..][j - 1]; }
          }
        }
      }
      if exists i :: 0 <= i < |s| && s[i] == Some(v) && forall j :: 0 <= j < i ==> s[j].None? {
        var i :| 0 <= i < |s| && s[i] == Some(v) && forall j :: 0 <= j < i ==> s[j].None?;
        if i > 0 {
          assert s[0].None?;
          assert s[1..][i - 1] == Some(v);
          assert forall j :: 0 <= j < i - 1 ==> s[1..][j].None? by {
            forall j | 0 <= j < i - 1 ensures s[1..][j].None? {
              assert s[1..][j] == s[j + 1];
            }
          }
        }
      }
    }
  }

  /** No element at all: FirstSome is None. */
  lemma {:induction false} FirstSomeOfNothing<T>(s: seq<Option<T>>)
    requires forall i :: 0 <= i < |s| ==> s[i].None?
    ensures FirstSome(s) == None
    decreases |s|
  {
    if |s| > 0 {
      FirstSomeOfNothing(s[1..]);
    }
  }

  /** The replies of two runs of iterations, one after the other, are the replies of each in turn. */
  lemma PositionRepliesAppend(a: seq<Poll>, b: seq<Poll>)
    ensures PositionReplies(a + b) == PositionReplies(a) + PositionReplies(b)
  {
  }

  /** The same for attitude replies. */
  lemma AttitudeRepliesAppend(a: seq<Poll>, b: seq<Poll>)
    ensures AttitudeReplies(a + b) == AttitudeReplies(a) + AttitudeReplies(b)
  {
  }

  // ---------------------------------------------------------------------------
  // Properties of a fusion attempt

  /**
   * A successful fusion takes every position field, and the time stamp, from
   * the first position message, and every attitude field from the first
   * attitude message, whatever the attitude message's own time stamp.
   */
  lemma FuseTakesFirstArrivals(polls: seq<Poll>)
    requires Fuse(polls).Some?
    ensures Complete(Fuse(polls).value)
    ensures PositionPart(Fuse(polls).value) == FirstSome(PositionReplies(polls))
    ensures var a := FirstSome(AttitudeReplies(polls)).value;
            AttitudePart(Fuse(polls).value, a.timeBootMs) == Some(a)
  {
  }

  /** Success exactly when at least one message of each kind arrived within the budget. */
  lemma {:induction false} FuseSucceedsIffBothArrive(polls: seq<Poll>)
    ensures Fuse(polls).Some? <==>
            (exists i :: 0 <= i < |polls| && AcceptPosition(polls[i].position).Some?) &&
            (exists j :: 0 <= j < |polls| && AcceptAttitude(polls[j].attitude).Some?)
  {
    var ps, ats := PositionReplies(polls), AttitudeReplies(polls);
    if exists i :: 0 <= i < |polls| && AcceptPosition(polls[i].position).Some? {
      var i :| 0 <= i < |polls| && AcceptPosition(polls[i].position).Some?;
      ArrivalIsFound(ps, i);
    } else {
      FirstSomeOfNothing(ps);
    }
    if exists j :: 0 <= j < |polls| && AcceptAttitude(polls[j].attitude).Some? {
      var j :| 0 <= j < |polls| && AcceptAttitude(polls[j].attitude).Some?;
      ArrivalIsFound(ats, j);
    } else {
      FirstSomeOfNothing(ats);
    }
    if Fuse(polls).Some? {
      FirstSomeWitness(ps);
      FirstSomeWitness(ats);
    }
  }

  /** An element anywhere means FirstSome finds one. */
  lemma {:induction false} ArrivalIsFound<T>(s: seq<Option<T>>, i: int)
    requires 0 <= i < |s| && s[i].Some?
    ensures FirstSome(s).Some?
    decreases |s|
  {
    if s[0].None? {
      ArrivalIsFound(s[1..], i - 1);
    }
  }

  /** What FirstSome returns stands somewhere in the sequence. */
  lemma {:induction false} FirstSomeWitness<T>(s: seq<Option<T>>)
    requires FirstSome(s).Some?
    ensures exists i :: 0 <= i < |s| && s[i] == FirstSome(s)
    decreases |s|
  {
    if s[0].None? {
      FirstSomeWitness(s[1..]);
      var i :| 0 <= i < |s| - 1 && s[1..][i] == FirstSome(s[1..]);
      assert s[i + 1] == FirstSome(s);
    }
  }

  /** Once an attempt has fused, further iterations cannot change the record. */
  lemma FuseIsStable(polls: seq<Poll>, more: seq<Poll>)
    requires Fuse(polls).Some?
    ensures Fuse(polls + more) == Fuse(polls)
  {
    PositionRepliesAppend(polls, more);
    AttitudeRepliesAppend(polls, more);
    FirstSomeAppend(PositionReplies(polls), PositionReplies(more));
    FirstSomeAppend(AttitudeReplies(polls), AttitudeReplies(more));
  }

  /** A poll iteration whose replies are absent or of the wrong type changes nothing. */
  lemma FuseIgnoresRejectedPoll(before: seq<Poll>, p: Poll, after: seq<Poll>)
    requires AcceptPosition(p.position).None? && AcceptAttitude(p.attitude).None?
    ensures Fuse(before + [p] + after) == Fuse(before + after)
  {
    PositionRepliesAppend(before + [p], after);
    PositionRepliesAppend(before, [p]);
    PositionRepliesAppend(before, after);
    AttitudeRepliesAppend(before + [p], after);
    AttitudeRepliesAppend(before, [p]);
    AttitudeRepliesAppend(before, after);
    assert PositionReplies([p]) == [None];
    assert AttitudeReplies([p]) == [None];
    FirstSomeSkipsNone(PositionReplies(before), PositionReplies(after));
    FirstSomeSkipsNone(AttitudeReplies(before), AttitudeReplies(after));
  }

  /** Both messages may be captured in one iteration, and then the attempt fuses at once. */
  lemma FuseInOneIteration(p: PositionMsg, a: AttitudeMsg)
    ensures Fuse([Poll(Some(LocalPositionNed(p)), Some(Attitude(a)))]) == Some(Combine(p, a))
  {
  }

  /**
   * An attempt that only ever sees attitude messages times out, and so does a
   * following attempt that only sees position messages: nothing from the
   * first attempt carries over to the second.
   */
  lemma TimeoutHasNoMemory(first: seq<Poll>, second: seq<Poll>)
    requires forall i :: 0 <= i < |first| ==> AcceptPosition(first[i].position).None?
    requires forall i :: 0 <= i < |second| ==> AcceptAttitude(second[i].attitude).None?
    ensures Fuse(first) == None
    ensures Fuse(second) == None
  {
    FirstSomeOfNothing(PositionReplies(first));
    FirstSomeOfNothing(AttitudeReplies(second));
  }

  /**
   * The telemetry reader. It holds no mutable state: the connection and the
   * logger are outside the model, and the budget is fixed.
   */
  class Telemetry {
    /**
     * The budget of one attempt, in seconds. It is recorded for reference only:
     * the budget takes effect solely as the length of the `polls` given to `Run`.
     */
    const Timeout: real

    constructor ()
      ensures Timeout == 1.0
    {
      Timeout := 1.0;
    }

    /**
     * One attempt: poll for each message kind not yet captured, fusing as soon
     * as both are held; None (a timeout) when the budget runs out first.
     */
    method Run(polls: seq<Poll>) returns (result: Option<TelemetryData>)
      ensures result == Fuse(polls)
    {
      var positionMsg: Option<PositionMsg> := None;
      var attitudeMsg: Option<AttitudeMsg> := None;
      var i := 0;
      while i < |polls|
        invariant 0 <= i <= |polls|
        invariant positionMsg == FirstSome(PositionReplies(polls[..i]))
        invariant attitudeMsg == FirstSome(AttitudeReplies(polls[..i]))
        invariant positionMsg.None? || attitudeMsg.None?
      {
        PositionRepliesAppend(polls[..i], [polls[i]]);
        AttitudeRepliesAppend(polls[..i], [polls[i]]);
        assert PositionReplies([polls[i]]) == [AcceptPosition(polls[i].position)];
        assert AttitudeReplies([polls[i]]) == [AcceptAttitude(polls[i].attitude)];
        FirstSomeSnoc(PositionReplies(polls[..i]), AcceptPosition(polls[i].position));
        FirstSomeSnoc(AttitudeReplies(polls[..i]), AcceptAttitude(polls[i].attitude));
        assert polls[..i + 1] == polls[..i] + [polls[i]];
        if positionMsg.None? {
          var msg := polls[i].position;
          if msg.Some? && msg.value.LocalPositionNed? {
            positionMsg := Some(msg.value.position);
          }
        }
        if attitudeMsg.None? {
          var msg := polls[i].attitude;
          if msg.Some? && msg.value.Attitude? {
            attitudeMsg := Some(msg.value.attitude);
          }
        }
        if positionMsg.Some? && attitudeMsg.Some? {
          FuseIsStable(polls[..i + 1], polls[i + 1..]);
          assert polls[..i + 1] + polls[i + 1..] == polls;
          return Some(Combine(positionMsg.value, attitudeMsg.value));
        }
        i := i + 1;
      }
      assert polls[..i] == polls;
      return None;
    }
  }
}
