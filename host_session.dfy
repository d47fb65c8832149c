/**
 * The control-ownership session of the host/viewer mock: which identity is the
 * controller ("host"), the single pending control-transfer request, and the
 * downtime flag that protects a non-empty incumbent against claims.
 *
 * The pure step functions below say what each operation does to a `Session`
 * value; the class `MockSession` updates its five fields in place and is
 * proved to follow them.
 */
module HostSession {
  import opened Wrappers

  /** JavaScript truthiness of an optional string: present and not empty. */
  predicate Truthy(x: Option<string>) {
    x.Some? && x.value != ""
  }

  /** `name || null`: an empty or missing name is stored as `null`. */
  function OrNull(name: Option<string>): (r: Option<string>)
    ensures r == None || r == name
    ensures Truthy(name) <==> r.Some?
  {
    if Truthy(name) then name else None
  }

  /** A pending control-transfer request. */
  datatype Request = Request(uid: Option<string>, name: Option<string>, requestedAt: int)

  /** The errors the session throws. */
  datatype SessionError =
    | UidRequired      // claimHost without a (non-empty) uid
    | NotController    // startDowntime by someone other than the controller
    | NotHost          // approveRequest by someone other than the controller

  /** The five fields of a session. */
  datatype Session = Session(
    controllerUid: Option<string>,
    controllerName: Option<string>,
    controlRequest: Option<Request>,
    downtimeActive: bool,
    resetCount: nat)

  /** The state after an operation together with what it returns or throws. */
  datatype Step<+T> = Step(next: Session, out: Result<T, SessionError>)

  /** A freshly constructed session: no controller, nothing pending, no downtime. */
  const Unclaimed := Session(None, None, None, false, 0)

  /** Downtime currently protects a (truthy) controller other than `uid`. */
  predicate Protects(s: Session, uid: Option<string>) {
    Truthy(s.controllerUid) && s.downtimeActive && s.controllerUid != uid
  }

  /** The number of requests waiting for approval. */
  function PendingCount(s: Session): (n: nat)
    ensures n <= 1
    ensures n == 0 <==> s.controlRequest.None?
  {
    if s.controlRequest.Some? then 1 else 0
  }

  /**
   * claimHost(uid, name): throws when `uid` is missing or empty; is refused
   * (false, no change) exactly when downtime protects another controller;
   * otherwise takes control.
   */
  function ClaimHostStep(s: Session, uid: Option<string>, name: Option<string>): (st: Step<bool>)
    ensures st.out.Err? <==> !Truthy(uid)
    ensures st.out.Err? ==> st.out.error == UidRequired
    ensures st.out == Ok(false) <==> Truthy(uid) && Protects(s, uid)
    ensures st.out != Ok(true) ==> st.next == s
    ensures st.out == Ok(true) ==>
      st.next.controllerUid == uid && st.next.controllerName == OrNull(name) &&
      st.next.controlRequest == s.controlRequest &&
      st.next.downtimeActive == s.downtimeActive &&
      st.next.resetCount == s.resetCount
  {
    if !Truthy(uid) then Step(s, Err(UidRequired))
    else if Truthy(s.controllerUid) && s.downtimeActive && s.controllerUid != uid then Step(s, Ok(false))
    else Step(s.(controllerUid := uid, controllerName := OrNull(name)), Ok(true))
  }

  /**
   * startDowntime(uid) as the source writes it: the guard compares the raw
   * values, so `null` passes it when there is no controller.
   */
  function StartDowntimeAsWritten(s: Session, uid: Option<string>): (st: Step<()>)
    ensures st.out.Ok? <==> uid == s.controllerUid
    ensures st.out.Err? ==> st.out.error == NotController && st.next == s
    ensures st.out.Ok? ==> st.next == s.(downtimeActive := true)
  {
    if uid != s.controllerUid then Step(s, Err(NotController))
    else Step(s.(downtimeActive := true), Ok(()))
  }

  /**
   * startDowntime(uid) with the guard the design intends: only a present
   * controller may open downtime, and it changes nothing but the flag.
   */
  function StartDowntimeStep(s: Session, uid: Option<string>): (st: Step<()>)
    ensures st.out.Ok? <==> uid.Some? && uid == s.controllerUid
    ensures st.out.Err? ==> st.out.error == NotController && st.next == s
    ensures st.out.Ok? ==> st.next == s.(downtimeActive := true)
  {
    if uid.None? || uid != s.controllerUid then Step(s, Err(NotController))
    else Step(s.(downtimeActive := true), Ok(()))
  }

  /** As written, `startDowntime(null)` on an unclaimed session opens downtime with no controller; the corrected guard refuses it. */
  lemma NullStartDowntimeOpensUncontrolledDowntime()
    ensures StartDowntimeAsWritten(Unclaimed, None).out.Ok?
    ensures StartDowntimeAsWritten(Unclaimed, None).next.downtimeActive
    ensures StartDowntimeAsWritten(Unclaimed, None).next.controllerUid.None?
    ensures StartDowntimeStep(Unclaimed, None) == Step(Unclaimed, Err(NotController))
  {
  }

  /**
   * requestControl(uid, name) at instant `now`: refused (false, no change)
   * exactly when another identity's request is pending; otherwise the
   * request slot is (re)written. It never throws.
   */
  function RequestControlStep(s: Session, uid: Option<string>, name: Option<string>, now: int): (st: Step<bool>)
    ensures st.out.Ok?
    ensures st.out == Ok(false) <==> s.controlRequest.Some? && s.controlRequest.value.uid != uid
    ensures st.out == Ok(false) ==> st.next == s
    ensures st.out == Ok(true) ==> st.next == s.(controlRequest := Some(Request(uid, OrNull(name), now)))
  {
    if s.controlRequest.Some? && s.controlRequest.value.uid != uid then Step(s, Ok(false))
    else Step(s.(controlRequest := Some(Request(uid, OrNull(name), now))), Ok(true))
  }

  /**
   * approveRequest(hostUid): throws unless `hostUid` is the controller;
   * false with no change when nothing is pending; otherwise hands control to
   * the requester and ends downtime.
   */
  function ApproveRequestStep(s: Session, hostUid: Option<string>): (st: Step<bool>)
    ensures st.out.Err? <==> hostUid != s.controllerUid
    ensures st.out.Err? ==> st.out.error == NotHost && st.next == s
    ensures st.out == Ok(false) <==> hostUid == s.controllerUid && s.controlRequest.None?
    ensures st.out == Ok(false) ==> st.next == s
    ensures st.out == Ok(true) ==>
      && s.controlRequest.Some?
      && st.next.controllerUid == s.controlRequest.value.uid
      && st.next.controllerName == OrNull(s.controlRequest.value.name)
      && st.next.controlRequest.None?
      && !st.next.downtimeActive
      && st.next.resetCount == s.resetCount
  {
    if hostUid != s.controllerUid then Step(s, Err(NotHost))
    else if s.controlRequest.None? then Step(s, Ok(false))
    else
      var req := s.controlRequest.value;
      Step(Session(req.uid, OrNull(req.name), None, false, s.resetCount), Ok(true))
  }

  /** reset(): clears every field and counts one more reset. */
  function ResetStep(s: Session): (r: Session)
    ensures r.controllerUid.None? && r.controllerName.None? && r.controlRequest.None?
    ensures !r.downtimeActive
    ensures r.resetCount == s.resetCount + 1
  {
    Unclaimed.(resetCount := s.resetCount + 1)
  }

  /** Reset clears to the same visible state every time; only the counter moves. */
  lemma ResetIdempotentOnVisibleFields(s: Session)
    ensures ResetStep(ResetStep(s)) == ResetStep(s).(resetCount := s.resetCount + 2)
    ensures ResetStep(ResetStep(s)).resetCount > ResetStep(s).resetCount
  {
  }

  /** A claim by the incumbent always succeeds and changes nothing but the display name, whatever the downtime flag. */
  lemma SelfReclaimSucceeds(s: Session, name: Option<string>)
    requires Truthy(s.controllerUid)
    ensures ClaimHostStep(s, s.controllerUid, name) == Step(s.(controllerName := OrNull(name)), Ok(true))
  {
  }

  /** Once the controller opens downtime, a claim by anyone else is refused and leaves the controller in place. */
  lemma DowntimeBlocksOtherClaims(s: Session, c: Option<string>, x: Option<string>, name: Option<string>)
    requires Truthy(c) && Truthy(x) && x != c
    requires s.controllerUid == c
    ensures var d := StartDowntimeStep(s, c);
      d.out.Ok? &&
      ClaimHostStep(d.next, x, name) == Step(d.next, Ok(false)) &&
      ClaimHostStep(d.next, x, name).next.controllerUid == c
  {
  }

  /** While a request by `a` is pending, a request by a different `b` is refused and `a` stays pending. */
  lemma FirstRequestBlocksOthers(s: Session, a: Option<string>, b: Option<string>, na: Option<string>, nb: Option<string>, t1: int, t2: int)
    requires a != b
    requires s.controlRequest.None? || s.controlRequest.value.uid == a
    ensures var r := RequestControlStep(s, a, na, t1);
      r.out == Ok(true) &&
      RequestControlStep(r.next, b, nb, t2) == Step(r.next, Ok(false)) &&
      r.next.controlRequest == Some(Request(a, OrNull(na), t1))
  {
  }

  /** A repeated request by the pending requester succeeds and refreshes its timestamp. */
  lemma ReRequestRefreshesTimestamp(s: Session, name: Option<string>, now: int)
    requires s.controlRequest.Some?
    ensures var st := RequestControlStep(s, s.controlRequest.value.uid, name, now);
      st.out == Ok(true) &&
      st.next.controlRequest == Some(Request(s.controlRequest.value.uid, OrNull(name), now))
  {
  }

  /**
   * The end-to-end handoff: host `h` claims, opens downtime, viewer `v`
   * requests, `h` approves; `v` is then controller with downtime cleared,
   * and a later claim by `h` succeeds because no protection remains.
   */
  lemma HandoffEndsProtection(h: string, v: string, hn: Option<string>, vn: Option<string>, now: int)
    requires h != "" && v != "" && h != v
    ensures
      var s1 := ClaimHostStep(Unclaimed, Some(h), hn);
      var s2 := StartDowntimeStep(s1.next, Some(h));
      var s3 := RequestControlStep(s2.next, Some(v), vn, now);
      var s4 := ApproveRequestStep(s3.next, Some(h));
      var s5 := ClaimHostStep(s4.next, Some(h), hn);
      && s1.out == Ok(true) && s2.out.Ok? && s2.next.downtimeActive
      && s3.out == Ok(true) && s4.out == Ok(true)
      && s4.next.controllerUid == Some(v) && !s4.next.downtimeActive && s4.next.controlRequest.None?
      && s5.out == Ok(true) && s5.next.controllerUid == Some(h)
  {
  }

  /** Downtime is only ever open while some identity holds control. */
  predicate DowntimeHeld(s: Session) {
    s.downtimeActive ==> s.controllerUid.Some?
  }

  /** The session object of the mock, updated in place. */
  class MockSession {
    var controllerUid: Option<string>
    var controllerName: Option<string>
    var controlRequest: Option<Request>
    var downtimeActive: bool
    var resetCount: nat

    /** The five fields as a `Session` value. */
    function Model(): Session
      reads this
    {
      Session(controllerUid, controllerName, controlRequest, downtimeActive, resetCount)
    }

    constructor ()
      ensures Model() == Unclaimed
    {
      controllerUid := None;
      controllerName := None;
      controlRequest := None;
      downtimeActive := false;
      resetCount := 0;
    }

    method ClaimHost(uid: Option<string>, name: Option<string>) returns (r: Result<bool, SessionError>)
      modifies this
      ensures Model() == ClaimHostStep(old(Model()), uid, name).next
      ensures r == ClaimHostStep(old(Model()), uid, name).out
      ensures DowntimeHeld(old(Model())) ==> DowntimeHeld(Model())
    {
      if !Truthy(uid) {
        return Err(UidRequired);
      }
      if Truthy(controllerUid) && downtimeActive && controllerUid != uid {
        return Ok(false);
      }
      controllerUid := uid;
      controllerName := OrNull(name);
      return Ok(true);
    }

    /** Uses the corrected guard: an absent uid never matches. */
    method StartDowntime(uid: Option<string>) returns (r: Result<(), SessionError>)
      modifies this
      ensures Model() == StartDowntimeStep(old(Model()), uid).next
      ensures r == StartDowntimeStep(old(Model()), uid).out
      ensures DowntimeHeld(old(Model())) ==> DowntimeHeld(Model())
    {
      if uid.None? || uid != controllerUid {
        return Err(NotController);
      }
      downtimeActive := true;
      return Ok(());
    }

    method RequestControl(uid: Option<string>, name: Option<string>, now: int) returns (r: bool)
      modifies this
      ensures Model() == RequestControlStep(old(Model()), uid, name, now).next
      ensures Ok(r) == RequestControlStep(old(Model()), uid, name, now).out
      ensures DowntimeHeld(old(Model())) ==> DowntimeHeld(Model())
    {
      if controlRequest.Some? && controlRequest.value.uid != uid {
        return false;
      }
      controlRequest := Some(Request(uid, OrNull(name), now));
      return true;
    }

    method ApproveRequest(hostUid: Option<string>) returns (r: Result<bool, SessionError>)
      modifies this
      ensures Model() == ApproveRequestStep(old(Model()), hostUid).next
      ensures r == ApproveRequestStep(old(Model()), hostUid).out
      ensures DowntimeHeld(old(Model())) ==> DowntimeHeld(Model())
    {
      if hostUid != controllerUid {
        return Err(NotHost);
      }
      if controlRequest.None? {
        return Ok(false);
      }
      var next := controlRequest.value;
      controllerUid := next.uid;
      controllerName := OrNull(next.name);
      controlRequest := None;
      downtimeActive := false;
      return Ok(true);
    }

    method Reset()
      modifies this
      ensures Model() == ResetStep(old(Model()))
      ensures resetCount == old(resetCount) + 1
    {
      controllerUid := None;
      controllerName := None;
      controlRequest := None;
      downtimeActive := false;
      resetCount := resetCount + 1;
    }
  }

  /** testInitialHostClaim: a second host cannot claim during the first host's downtime. */
  method InitialHostClaimScenario() returns (first: Result<bool, SessionError>, second: Result<bool, SessionError>, controller: Option<string>)
    ensures first == Ok(true)
    ensures second == Ok(false)
    ensures controller == Some("host-1")
  {
    var session := new MockSession();
    first := session.ClaimHost(Some("host-1"), Some("Alice"));
    var _ := session.StartDowntime(Some("host-1"));
    second := session.ClaimHost(Some("host-2"), Some("Bob"));
    controller := session.controllerUid;
  }

  /** testControlRequestFlow: a viewer's request registers and the host's approval hands over control. */
  method ControlRequestFlowScenario(now: int) returns (requested: bool, pendingUid: Option<string>, approved: Result<bool, SessionError>, controller: Option<string>, pending: Option<Request>)
    ensures requested
    ensures pendingUid == Some("viewer-1")
    ensures approved == Ok(true)
    ensures controller == Some("viewer-1")
    ensures pending.None?
  {
    var session := new MockSession();
    var _ := session.ClaimHost(Some("host-1"), Some("Alice"));
    var _ := session.StartDowntime(Some("host-1"));
    requested := session.RequestControl(Some("viewer-1"), Some("Eve"), now);
    pendingUid := session.controlRequest.value.uid;
    session.downtimeActive := false;
    approved := session.ApproveRequest(Some("host-1"));
    controller := session.controllerUid;
    pending := session.controlRequest;
  }

  /** testResetClears: reset empties the session and counts once. */
  method ResetClearsScenario(now: int) returns (controller: Option<string>, pending: Option<Request>, resets: nat)
    ensures controller.None?
    ensures pending.None?
    ensures resets == 1
  {
    var session := new MockSession();
    var _ := session.ClaimHost(Some("host-1"), Some("Alice"));
    var _ := session.RequestControl(Some("viewer-2"), Some("Mallory"), now);
    session.Reset();
    controller := session.controllerUid;
    pending := session.controlRequest;
    resets := session.resetCount;
  }
}
