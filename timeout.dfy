/**
 The ring/response timeout of a friend call: a timer that is created
 lazily, bound at creation to the call id it reports, and discarded when
 stopped. Only its existence, whether it is counting down, and the bound
 id are modelled; its duration and firing are not.
 */
module Timeout {

  /** A friend or group number (uint32_t). */
  type CallId = x: nat | x < 0x1_0000_0000

  datatype Timer = NoTimer | Timer(boundId: CallId, running: bool)

  /**
   startTimeout(callId): create and bind a timer only if there is none,
   then start it only if it is not already counting down.
   */
  function Start(t: Timer, callId: CallId): (r: Timer)
    ensures r.Timer? && r.running
    ensures r.boundId == (if t.Timer? then t.boundId else callId)
    ensures t.Timer? && t.running ==> r == t
  {
    var created := if t.NoTimer? then Timer(callId, false) else t;
    if !created.running then created.(running := true) else created
  }

  /** stopTimeout(): no timer is left, whatever there was. */
  function Stop(t: Timer): (r: Timer)
    ensures r.NoTimer?
  {
    NoTimer
  }

  /** A second start, with any id, changes nothing: no second timer, no rebinding. */
  lemma StartTwice(t: Timer, first: CallId, second: CallId)
    ensures Start(Start(t, first), second) == Start(t, first)
  {
  }

  /** After a stop, the next start creates a fresh timer bound to the new id. */
  lemma StopThenStart(t: Timer, callId: CallId)
    ensures Start(Stop(t), callId) == Timer(callId, true)
  {
  }

  datatype TimerOp = StartTimeout(callId: CallId) | StopTimeout

  function Apply(t: Timer, op: TimerOp): Timer
  {
    match op
    case StartTimeout(id) => Start(t, id)
    case StopTimeout => Stop(t)
  }

  /** The timer after a history of calls, starting from a call that has none. */
  function Replay(ops: seq<TimerOp>): Timer
    decreases |ops|
  {
    if ops == [] then NoTimer
    else Apply(Replay(ops[..|ops| - 1]), ops[|ops| - 1])
  }

  /** The call at position i is a startTimeout that no later stopTimeout cancelled. */
  ghost predicate Unstopped(ops: seq<TimerOp>, i: int)
  {
    0 <= i < |ops| && ops[i].StartTimeout? && forall j :: i < j < |ops| ==> !ops[j].StopTimeout?
  }

  /**
   After any history a timer exists exactly when some startTimeout has
   not been followed by a stopTimeout; it is then counting down and is
   bound to the id of the earliest such startTimeout.
   */
  lemma {:induction false} ReplayMeaning(ops: seq<TimerOp>)
    ensures Replay(ops).NoTimer? || Replay(ops).running
    ensures Replay(ops).Timer? <==> exists i :: Unstopped(ops, i)
    ensures forall i :: Unstopped(ops, i) && (forall k :: 0 <= k < i ==> !Unstopped(ops, k)) ==>
      Replay(ops).boundId == ops[i].callId
    decreases |ops|
  {
    if ops != [] {
      var n := |ops| - 1;
      var pre := ops[..n];
      ReplayMeaning(pre);
      assert forall i :: 0 <= i < n && ops[n].StartTimeout? ==> (Unstopped(ops, i) <==> Unstopped(pre, i));
      match ops[n]
      case StopTimeout =>
        assert forall i :: !Unstopped(ops, i);
      case StartTimeout(id) =>
        assert Unstopped(ops, n);
        if Replay(pre).NoTimer? {
          forall i | Unstopped(ops, i) && (forall k :: 0 <= k < i ==> !Unstopped(ops, k))
            ensures Replay(ops).boundId == ops[i].callId
          {
            if i < n {
              assert Unstopped(pre, i);
            }
          }
        } else {
          var w :| Unstopped(pre, w);
          assert w < n && Unstopped(ops, w);
          forall i | Unstopped(ops, i) && (forall k :: 0 <= k < i ==> !Unstopped(ops, k))
            ensures Replay(ops).boundId == ops[i].callId
          {
            assert Unstopped(pre, i);
            assert forall k :: 0 <= k < i ==> !Unstopped(pre, k);
          }
        }
    }
  }
}
