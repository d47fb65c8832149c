/**
 * Sequences of session operations and the properties that hold over every
 * such sequence. An operation that throws leaves the session unchanged
 * (every throw happens before any field is assigned), so a run simply
 * carries on from the same state.
 */
module HostSessionTraces {
  import opened Wrappers
  import opened HostSession

  /** One call on the session, with the instant `requestControl` stamps. */
  datatype Op =
    | ClaimOp(uid: Option<string>, name: Option<string>)
    | DowntimeOp(uid: Option<string>)
    | RequestOp(uid: Option<string>, name: Option<string>, now: int)
    | ApproveOp(uid: Option<string>)
    | ResetOp

  /** The session after one call, whether it returned or threw. */
  function Apply(s: Session, op: Op): Session {
    match op
    case ClaimOp(uid, name) => ClaimHostStep(s, uid, name).next
    case DowntimeOp(uid) => StartDowntimeStep(s, uid).next
    case RequestOp(uid, name, now) => RequestControlStep(s, uid, name, now).next
    case ApproveOp(uid) => ApproveRequestStep(s, uid).next
    case ResetOp => ResetStep(s)
  }

  /** The session after the calls `ops`, in order. */
  function Run(s: Session, ops: seq<Op>): Session
    decreases |ops|
  {
    if ops == [] then s else Run(Apply(s, ops[0]), ops[1..])
  }

  /** The number of `reset` calls in `ops`. */
  function Resets(ops: seq<Op>): nat
    decreases |ops|
  {
    if ops == [] then 0 else (if ops[0].ResetOp? then 1 else 0) + Resets(ops[1..])
  }

  /** No call in `ops` can hand control over or clear the session. */
  predicate HandoffFree(ops: seq<Op>) {
    forall i :: 0 <= i < |ops| ==> !ops[i].ApproveOp? && !ops[i].ResetOp?
  }

  /** Downtime only opens through a successful `startDowntime` by the present controller. */
  lemma DowntimeOnlyOpenedByController(s: Session, op: Op)
    requires !s.downtimeActive && Apply(s, op).downtimeActive
    ensures op.DowntimeOp? && op.uid.Some? && op.uid == s.controllerUid
  {
  }

  /** Every single call keeps downtime tied to a present controller. */
  lemma ApplyKeepsDowntimeHeld(s: Session, op: Op)
    requires DowntimeHeld(s)
    ensures DowntimeHeld(Apply(s, op))
  {
  }

  /** Over any sequence of calls, downtime is never open without a controller. */
  lemma {:induction false} RunKeepsDowntimeHeld(s: Session, ops: seq<Op>)
    requires DowntimeHeld(s)
    ensures DowntimeHeld(Run(s, ops))
    decreases |ops|
  {
    if ops != [] {
      ApplyKeepsDowntimeHeld(s, ops[0]);
      RunKeepsDowntimeHeld(Apply(s, ops[0]), ops[1..]);
    }
  }

  /** The audit counter grows by exactly the number of resets, and by nothing else. */
  lemma {:induction false} RunCountsResets(s: Session, ops: seq<Op>)
    ensures Run(s, ops).resetCount == s.resetCount + Resets(ops)
    decreases |ops|
  {
    if ops != [] {
      RunCountsResets(Apply(s, ops[0]), ops[1..]);
    }
  }

  /**
   * While downtime protects a controller, no sequence of claims, downtime
   * starts and requests moves control or ends the protection: only an
   * approval or a reset can.
   */
  lemma {:induction false} DowntimeProtectsController(s: Session, ops: seq<Op>)
    requires s.downtimeActive && Truthy(s.controllerUid)
    requires HandoffFree(ops)
    ensures Run(s, ops).controllerUid == s.controllerUid
    ensures Run(s, ops).downtimeActive
    decreases |ops|
  {
    if ops != [] {
      assert !ops[0].ApproveOp? && !ops[0].ResetOp?;
      assert HandoffFree(ops[1..]) by {
        forall i | 0 <= i < |ops[1..]| ensures !ops[1..][i].ApproveOp? && !ops[1..][i].ResetOp? {
          assert ops[1..][i] == ops[i + 1];
        }
      }
      DowntimeProtectsController(Apply(s, ops[0]), ops[1..]);
    }
  }

  /**
   * First requester wins: once a request is pending, the pending requester
   * stays the same until an approval or a reset, whoever else requests.
   */
  lemma {:induction false} FirstRequesterWins(s: Session, ops: seq<Op>)
    requires s.controlRequest.Some?
    requires HandoffFree(ops)
    ensures Run(s, ops).controlRequest.Some?
    ensures Run(s, ops).controlRequest.value.uid == s.controlRequest.value.uid
    decreases |ops|
  {
    if ops != [] {
      assert !ops[0].ApproveOp? && !ops[0].ResetOp?;
      assert HandoffFree(ops[1..]) by {
        forall i | 0 <= i < |ops[1..]| ensures !ops[1..][i].ApproveOp? && !ops[1..][i].ResetOp? {
          assert ops[1..][i] == ops[i + 1];
        }
      }
      FirstRequesterWins(Apply(s, ops[0]), ops[1..]);
    }
  }

  /**
   * Downtime protects only a non-empty controller: an approved request from
   * `''` installs the empty identity, which claims treat as absent, so a
   * claim by anyone succeeds even though downtime stays active.
   */
  lemma EmptyControllerIsNotProtected()
    ensures
      var s := Run(Unclaimed, [ClaimOp(Some("h"), None), RequestOp(Some(""), None, 0), ApproveOp(Some("h")), DowntimeOp(Some(""))]);
      var c := ClaimHostStep(s, Some("x"), None);
      && s.downtimeActive && s.controllerUid == Some("")
      && c.out == Ok(true) && c.next.controllerUid == Some("x") && c.next.downtimeActive
  {
  }
}
