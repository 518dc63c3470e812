/**
 * The guard a caller can check when a lease takes its fence: with no earlier activation of
 * the session about to make its route active, a lease that is driven once is well shown
 * when it returns normally.
 */
module CanvasGuards {
  import opened Wrappers
  import opened CanvasBounds
  import opened DesignCanvas
  import opened CanvasSafety
  import opened CanvasFrames
  import opened CanvasFences
  import opened CanvasLeases

  /** The activation only waits for its old lease to close or its proxy before it makes its route active. */
  predicate Opens(c: Call) {
    c.Activating? && (c.stage.ClosingLease? || c.stage.SettingProxy?)
  }

  /** An activation comes to that only from there, or from resolving its route with its fence still standing. */
  predicate OpensFrom(h: Host, id: CallId, d: Call) {
    Opens(d) ==>
      && id in h.calls && h.calls[id].Activating? && SameWork(h.calls[id], d)
      && (Opens(h.calls[id]) || FenceOf(h, d.sid) == Some(d.token))
  }

  ghost predicate AllOpen(h: Host, g: Host) {
    forall id :: id in g.calls ==> OpensFrom(h, id, g.calls[id])
  }

  /** One call changes, goes or comes new; the others stay. */
  lemma OneOpens(h: Host, g: Host, id: CallId)
    requires forall k :: k in g.calls && k != id ==> k in h.calls && g.calls[k] == h.calls[k]
    requires id in g.calls ==> OpensFrom(h, id, g.calls[id])
    ensures AllOpen(h, g)
  {
  }

  /** Nothing but calls that open nothing come new. */
  ghost predicate Quietly(h: Host, g: Host) {
    forall id :: id in g.calls && Opens(g.calls[id]) ==> id in h.calls && g.calls[id] == h.calls[id]
  }

  lemma QuietlyOpen(h: Host, g: Host)
    requires Quietly(h, g)
    ensures AllOpen(h, g)
  {
  }

  lemma StartBeginQuietly(h: Host, at: SessionId, candidate: Identity, replaced: Option<Identity>, byShow: bool)
    requires at in h.states
    ensures Quietly(h, StartBegin(h, at, candidate, replaced, byShow))
  {
  }

  lemma PresentQuietly(h: Host, at: SessionId, input: Show)
    requires at in h.states
    ensures Quietly(h, Present(h, at, input))
  {
    var s := h.states[at];
    var replaced := if s.active.Some? then Some(s.active.value.identity) else None;
    StartBeginQuietly(h, at, input.identity, replaced, true);
  }

  lemma ShowQuietly(h: Host, input: Show)
    ensures Quietly(h, ShowDesign(h, input))
  {
    var ready := WithSession(h, input.designId);
    var g := ShowDesign(h, input);
    if g != h && g != ready {
      var at := RequireSession(h, input.designId).value;
      PresentQuietly(Request(ready, at, input), at, input);
    }
  }

  lemma RefreshQuietly(h: Host, designId: DesignId, generationId: string, requestId: int)
    ensures Quietly(h, Refresh(h, designId, generationId, requestId))
  {
    if designId in h.sessions && h.sessions[designId] in h.states &&
       Accepts(h.states[h.sessions[designId]], h.rendererEpoch, requestId) {
      var at := h.sessions[designId];
      var s := h.states[at];
      var accepted := h.(states := h.states[at := s.(requestId := requestId)]);
      if s.requestedShow.Some? && !LiveView(s) {
        ShowQuietly(accepted, s.requestedShow.value.(requestId := requestId));
      }
    }
  }

  lemma FinishOpens(h: Host, id: CallId)
    requires id in h.calls && h.calls[id].Activating? && h.calls[id].sid in h.states
    ensures AllOpen(h, FinishActivation(h, id))
  {
    OneOpens(h, FinishActivation(h, id), id);
  }

  lemma SettleOpens(h: Host, id: CallId, normally: bool)
    requires id in h.calls && h.calls[id].Activating? && h.calls[id].sid in h.states
    ensures AllOpen(h, SettleActivation(h, id, normally))
  {
    OneOpens(h, SettleActivation(h, id, normally), id);
  }

  lemma StageOpens(h: Host, id: CallId, outcome: Outcome)
    requires id in h.calls && h.calls[id].Activating? && h.calls[id].sid in h.states
    requires !h.calls[id].stage.Loaded? && !h.calls[id].stage.Returning?
    ensures AllOpen(h, ResumeActivation(h, id, outcome))
  {
    OneOpens(h, ResumeActivation(h, id, outcome), id);
  }

  lemma ActivationOpens(h: Host, id: CallId, outcome: Outcome)
    requires id in h.calls && h.calls[id].Activating? && h.calls[id].sid in h.states
    ensures AllOpen(h, ResumeActivation(h, id, outcome))
  {
    match h.calls[id].stage {
      case Loaded => FinishOpens(h, id);
      case Returning(normally) => SettleOpens(h, id, normally);
      case _ => StageOpens(h, id, outcome);
    }
  }

  lemma ResumeShowQuietly(h: Host, id: CallId)
    requires id in h.calls && h.calls[id].ShowAfterCommit? && h.calls[id].sid in h.states
    ensures Quietly(h, ResumeShow(h, id))
  {
    var s := h.states[h.calls[id].sid];
    if s.requestedShow.Some? { ShowQuietly(EndCall(h, id), s.requestedShow.value); }
  }

  lemma BeginQuietly(h: Host, id: CallId, outcome: Outcome)
    requires id in h.calls && h.calls[id].Beginning? && h.calls[id].sid in h.states
    ensures Quietly(h, ResumeBegin(h, id, outcome))
  {
  }

  lemma OtherResumedQuietly(h: Host, id: CallId, outcome: Outcome)
    requires CanHappen(h, Resumed(id, outcome)) &&
             (h.calls[id].Leased? || h.calls[id].Reloading? || h.calls[id].Closing?)
    ensures Quietly(h, Step(h, Resumed(id, outcome)))
  {
  }

  lemma OtherEventsQuietly(h: Host, e: Event)
    requires CanHappen(h, e) && !e.ShowCalled? && !e.RefreshCalled? && !e.Resumed?
    ensures Quietly(h, Step(h, e))
  {
  }

  lemma StepOpens(h: Host, e: Event)
    requires CanHappen(h, e)
    ensures AllOpen(h, Step(h, e))
  {
    match e {
      case ShowCalled(input) =>
        ShowQuietly(h, input);
        QuietlyOpen(h, Step(h, e));
      case RefreshCalled(designId, generationId, requestId) =>
        RefreshQuietly(h, designId, generationId, requestId);
        QuietlyOpen(h, Step(h, e));
      case Resumed(call, outcome) => ResumedOpens(h, call, outcome);
      case _ =>
        OtherEventsQuietly(h, e);
        QuietlyOpen(h, Step(h, e));
    }
  }

  lemma ResumedOpens(h: Host, id: CallId, outcome: Outcome)
    requires CanHappen(h, Resumed(id, outcome))
    ensures AllOpen(h, Step(h, Resumed(id, outcome)))
  {
    if h.calls[id].Activating? {
      ActivationOpens(h, id, outcome);
    } else {
      if h.calls[id].ShowAfterCommit? {
        ResumeShowQuietly(h, id);
      } else if h.calls[id].Beginning? {
        BeginQuietly(h, id, outcome);
      } else {
        OtherResumedQuietly(h, id, outcome);
      }
      QuietlyOpen(h, Step(h, Resumed(id, outcome)));
    }
  }

  // ----- While the fence stands -----

  /** No activation of the session that works for another token is about to make its route active. */
  ghost predicate NoOtherOpens(h: Host, sid: SessionId, token: Token) {
    forall id :: id in h.calls && Opens(h.calls[id]) && h.calls[id].sid == sid ==> h.calls[id].token == token
  }

  lemma NoOtherOpensOn(h: Host, e: Event, sid: SessionId, token: Token)
    requires CanHappen(h, e) && NoOtherOpens(h, sid, token) && FenceOf(h, sid) == Some(token)
    ensures NoOtherOpens(Step(h, e), sid, token)
  {
    StepOpens(h, e);
    var g := Step(h, e);
    forall id | id in g.calls && Opens(g.calls[id]) && g.calls[id].sid == sid ensures g.calls[id].token == token {
      assert OpensFrom(h, id, g.calls[id]);
    }
  }

  ghost predicate NoOtherOpensAt(hosts: seq<Host>, k: nat, sid: SessionId, token: Token)
    requires k < |hosts|
  {
    NoOtherOpens(hosts[k], sid, token)
  }

  /** Each step between the two states carries it on. */
  ghost predicate CarriesOn(hosts: seq<Host>, i: nat, j: nat, sid: SessionId, token: Token)
    requires j < |hosts|
  {
    forall k :: i < k < j && NoOtherOpensAt(hosts, k, sid, token) ==> NoOtherOpensAt(hosts, k + 1, sid, token)
  }

  lemma {:induction false} CarriedOn(hosts: seq<Host>, i: nat, k: nat, j: nat, sid: SessionId, token: Token)
    requires i < k <= j < |hosts| && NoOtherOpensAt(hosts, i + 1, sid, token) && CarriesOn(hosts, i, j, sid, token)
    ensures NoOtherOpensAt(hosts, k, sid, token)
    decreases k
  {
    if k > i + 1 { CarriedOn(hosts, i, k - 1, j, sid, token); }
  }

  lemma StandingCarriesOn(events: seq<Event>, hosts: seq<Host>, i: nat, j: nat, id: CallId, sid: SessionId,
                          token: Token)
    requires Standing(events, hosts, i, j, id, sid, token)
    ensures CarriesOn(hosts, i, j, sid, token)
  {
    forall k | i < k < j && NoOtherOpensAt(hosts, k, sid, token) ensures NoOtherOpensAt(hosts, k + 1, sid, token) {
      OneCarriesOn(events, hosts, i, k, j, id, sid, token);
    }
  }

  lemma OneCarriesOn(events: seq<Event>, hosts: seq<Host>, i: nat, k: nat, j: nat, id: CallId, sid: SessionId,
                     token: Token)
    requires Standing(events, hosts, i, j, id, sid, token) && i < k < j && NoOtherOpensAt(hosts, k, sid, token)
    ensures NoOtherOpensAt(hosts, k + 1, sid, token)
  {
    Before(events, hosts, i, k, j, id, sid, token);
    NoOtherOpensOn(hosts[k], events[k], sid, token);
  }

  /** No activation of the session is about to make its route active. */
  ghost predicate NoneOpens(h: Host, sid: SessionId) {
    forall id :: id in h.calls && h.calls[id].sid == sid ==> !Opens(h.calls[id])
  }

  /** The lease is driven by this activation alone. */
  ghost predicate DrivenBy(h: Host, id: CallId, sid: SessionId, token: Token) {
    forall c :: c in h.calls && h.calls[c].Activating? && Serves(h.calls[c], sid, token) ==> c == id
  }

  /** So no other call makes a route of the session active. */
  lemma GuardedInstall(h: Host, e: Event, id: CallId, sid: SessionId, token: Token)
    requires CanHappen(h, e) && NoOtherOpens(h, sid, token) && DrivenBy(h, id, sid, token)
    ensures OthersInstallNone(h, e, id, sid)
  {
    if InstallOf(h, e, sid).Some? { assert Opens(h.calls[e.call]) && h.calls[e.call].token == token; }
  }

  /**
   * A lease that takes its fence while no activation of the session is about to make its
   * route active, and that is driven once: its session is well shown when it returns
   * normally, whatever other cutovers, shows, hides, resets and closes come in between.
   */
  lemma GuardedReturnsWell(events: seq<Event>, hosts: seq<Host>, i: nat, j: nat, id: CallId, sid: SessionId,
                           token: Token)
    requires Run(events, hosts) && i < j < |events| && Takes(hosts[i], hosts[i + 1], sid, token)
    requires Own(hosts[j], events[j], sid, token) && Returns(hosts[j], hosts[j + 1], id, sid, token)
    requires NoneOpens(hosts[i + 1], sid)
    requires forall k :: i < k < j ==> DrivenBy(hosts[k], id, sid, token)
    ensures WellShownIn(hosts[j + 1], sid)
  {
    ReturnStands(events, hosts, i, j, id, sid, token);
    StandingCarriesOn(events, hosts, i, j, id, sid, token);
    forall k | i < k < j ensures OthersInstallNone(hosts[k], events[k], id, sid) {
      CarriedOn(hosts, i, k, j, sid, token);
      GuardedInstall(hosts[k], events[k], id, sid, token);
    }
    LeaseReturnsWell(events, hosts, i, j, id, sid, token);
  }
}
