/**
 * What one cutover lease can rely on while its token is its session's fence: no step but
 * its own, and an older activation's that makes its route the active one, opens the
 * network or sets a view on the session.
 */
module CanvasFences {
  import opened Wrappers
  import opened CanvasBounds
  import opened DesignCanvas
  import opened CanvasSafety
  import opened CanvasFrames

  function FenceOf(h: Host, sid: SessionId): Option<Token> {
    if sid in h.states then h.states[sid].fenceToken else None
  }

  /** The call works for the lease of this token. */
  predicate Serves(c: Call, sid: SessionId, token: Token) {
    (c.Beginning? || c.Leased? || c.Activating?) && c.sid == sid && c.token == token
  }

  /** Nothing else works for the lease beside this call. */
  predicate Sole(c: Call) {
    c.Beginning? || (c.Leased? && c.byShow)
  }

  /** `begin` is still waiting for the connections to close. */
  ghost predicate Opening(h: Host, sid: SessionId, token: Token) {
    exists id :: id in h.calls && Serves(h.calls[id], sid, token) && h.calls[id].Beginning? &&
      h.calls[id].originsLeft.None?
  }

  /** The identity whose route the event makes the session's active one, whoever's lease it is for. */
  function InstallOf(h: Host, e: Event, sid: SessionId): Option<Identity> {
    if e.Resumed? && e.call in h.calls && h.calls[e.call].sid == sid && Installs(h.calls[e.call], e.outcome)
    then Some(h.calls[e.call].stage.route.identity)
    else None
  }

  // ----- What every other step may do while the fence stands -----

  /** The network may be denied and the view dropped; nothing is opened or set. */
  predicate Soft(s: Session, t: Session) {
    && t.active == s.active && (t.mode == s.mode || t.mode == DenyAll)
    && (t.view.None? || (ViewId(t) == ViewId(s) && t.mode == s.mode))
  }

  ghost predicate SameCalls(h: Host, g: Host, sid: SessionId, token: Token) {
    && (forall id :: id in g.calls && Serves(g.calls[id], sid, token) ==> id in h.calls && h.calls[id] == g.calls[id])
    && (forall id :: id in h.calls && Serves(h.calls[id], sid, token) ==> id in g.calls && g.calls[id] == h.calls[id])
  }

  ghost predicate Aside(h: Host, g: Host, sid: SessionId, token: Token) {
    FenceOf(g, sid) == Some(token) ==>
      FenceOf(h, sid) == Some(token) && Soft(h.states[sid], g.states[sid]) && SameCalls(h, g, sid, token)
  }

  lemma AsideTwice(h: Host, g: Host, k: Host, sid: SessionId, token: Token)
    requires Aside(h, g, sid, token) && Aside(g, k, sid, token)
    ensures Aside(h, k, sid, token)
  {
  }

  lemma SameAside(h: Host, g: Host, sid: SessionId, token: Token)
    requires g.states == h.states && SameCalls(h, g, sid, token)
    ensures Aside(h, g, sid, token)
  {
  }

  lemma EndCallAside(h: Host, id: CallId, sid: SessionId, token: Token)
    requires id in h.calls ==> !Serves(h.calls[id], sid, token)
    ensures Aside(h, EndCall(h, id), sid, token)
  {
  }

  lemma NewCallAside(h: Host, c: Call, sid: SessionId, token: Token)
    requires h.next !in h.calls && !Serves(c, sid, token)
    ensures Aside(h, NewCall(h, c), sid, token)
  {
  }

  lemma DeactivateAllAside(h: Host, targets: set<SessionId>, preserveLinks: bool, sid: SessionId, token: Token)
    ensures Aside(h, DeactivateAll(h, targets, preserveLinks), sid, token)
  {
  }

  lemma PlaceAside(h: Host, at: SessionId, bounds: Bounds, sid: SessionId, token: Token)
    requires at in h.states
    ensures Aside(h, PlaceAndAttach(h, at, bounds), sid, token)
  {
  }

  lemma WithSessionAside(h: Host, designId: DesignId, sid: SessionId, token: Token)
    requires Inv(h)
    ensures Aside(h, WithSession(h, designId), sid, token)
  {
  }

  /** A later cutover takes the fence with a token of its own. */
  lemma StartBeginAside(h: Host, at: SessionId, candidate: Identity, replaced: Option<Identity>, byShow: bool,
                        sid: SessionId, token: Token)
    requires Inv(h) && at in h.states && token < h.next
    ensures Aside(h, StartBegin(h, at, candidate, replaced, byShow), sid, token)
  {
  }

  lemma RequestAside(h: Host, at: SessionId, input: Show, sid: SessionId, token: Token)
    requires at in h.states
    ensures Aside(h, Request(h, at, input), sid, token)
  {
  }

  lemma PresentAside(h: Host, at: SessionId, input: Show, sid: SessionId, token: Token)
    requires Inv(h) && at in h.states && token < h.next
    ensures Aside(h, Present(h, at, input), sid, token)
  {
    var s := h.states[at];
    var replaced := if s.active.Some? then Some(s.active.value.identity) else None;
    SameAside(h, h, sid, token);
    PlaceAside(h, at, input.bounds, sid, token);
    StartBeginAside(h, at, input.identity, replaced, true, sid, token);
  }

  lemma ShowAside(h: Host, input: Show, sid: SessionId, token: Token)
    requires Inv(h) && token < h.next
    ensures Aside(h, ShowDesign(h, input), sid, token)
  {
    var ready := WithSession(h, input.designId);
    WithSessionAside(h, input.designId, sid, token);
    WithSessionKeeps(h, input.designId);
    SameAside(h, h, sid, token);
    var g := ShowDesign(h, input);
    if g != h && g != ready {
      var at := RequireSession(h, input.designId).value;
      var requested := Request(ready, at, input);
      RequestKeeps(ready, input);
      RequestAside(ready, at, input, sid, token);
      PresentAside(requested, at, input, sid, token);
      AsideTwice(h, ready, requested, sid, token);
      AsideTwice(h, requested, g, sid, token);
    }
  }

  lemma BeginCutoverAside(h: Host, designId: DesignId, candidate: Identity, replaced: Option<Identity>,
                          sid: SessionId, token: Token)
    requires Inv(h) && token < h.next
    ensures Aside(h, BeginCutover(h, designId, candidate, replaced), sid, token)
  {
    var ready := WithSession(h, designId);
    WithSessionAside(h, designId, sid, token);
    WithSessionKeeps(h, designId);
    SameAside(h, h, sid, token);
    var g := BeginCutover(h, designId, candidate, replaced);
    if g != h {
      StartBeginAside(ready, RequireSession(h, designId).value, candidate, replaced, false, sid, token);
      AsideTwice(h, ready, g, sid, token);
    }
  }

  lemma AcceptAside(h: Host, at: SessionId, requestId: int, sid: SessionId, token: Token)
    requires at in h.states
    ensures Aside(h, h.(states := h.states[at := h.states[at].(requestId := requestId)]), sid, token)
  {
  }

  lemma RefreshAside(h: Host, designId: DesignId, generationId: string, requestId: int, sid: SessionId, token: Token)
    requires Inv(h) && token < h.next
    ensures Aside(h, Refresh(h, designId, generationId, requestId), sid, token)
  {
    SameAside(h, h, sid, token);
    if designId in h.sessions && Accepts(h.states[h.sessions[designId]], h.rendererEpoch, requestId) {
      var at := h.sessions[designId];
      var s := h.states[at];
      var accepted := h.(states := h.states[at := s.(requestId := requestId)]);
      AcceptAside(h, at, requestId, sid, token);
      AcceptKeeps(h, at, requestId);
      var g := Refresh(h, designId, generationId, requestId);
      if s.requestedShow.Some? && s.requestedShow.value.identity.generationId == generationId && s.fenceToken.None? {
        if !LiveView(s) {
          ShowAside(accepted, s.requestedShow.value.(requestId := requestId), sid, token);
          AsideTwice(h, accepted, g, sid, token);
        } else if s.active.Some? {
          NewCallAside(accepted, Reloading(at, s.view.value.id, s.active.value.identity.generationId), sid, token);
          AsideTwice(h, accepted, g, sid, token);
        }
      }
    }
  }

  lemma DetachAside(h: Host, sid: SessionId, token: Token)
    ensures Aside(h, Detach(h), sid, token)
  {
  }

  lemma AttachWindowAside(h: Host, w: Window, sid: SessionId, token: Token)
    ensures Aside(h, NextEpoch(Detach(h)).(window := Some(w)), sid, token)
  {
  }

  lemma ResetAside(h: Host, sid: SessionId, token: Token)
    ensures Aside(h, NextEpoch(DeactivateAll(h, Mapped(h), false)), sid, token)
  {
  }

  lemma HideAside(h: Host, designId: DesignId, requestId: int, sid: SessionId, token: Token)
    ensures Aside(h, Hide(h, designId, requestId), sid, token)
  {
  }

  lemma CloseAside(h: Host, designId: DesignId, sid: SessionId, token: Token)
    requires h.next !in h.calls
    ensures Aside(h, Close(h, designId), sid, token)
  {
  }

  lemma ApproveAside(h: Host, designId: DesignId, linkId: nat, sid: SessionId, token: Token)
    ensures Aside(h, Approve(h, designId, linkId), sid, token)
  {
  }

  lemma SurroundingsAside(h: Host, e: Event, sid: SessionId, token: Token)
    requires CanHappen(h, e) &&
             (e.LinkRequested? || e.ViewDestroyed? || e.WindowDestroyed? || e.WindowResized? || e.TimePasses?)
    ensures Aside(h, Step(h, e), sid, token)
  {
  }

  // ----- The calls of other leases -----

  lemma BeginAside(h: Host, id: CallId, outcome: Outcome, sid: SessionId, token: Token)
    requires id in h.calls && h.calls[id].Beginning? && h.calls[id].sid in h.states && !Serves(h.calls[id], sid, token)
    ensures Aside(h, ResumeBegin(h, id, outcome), sid, token)
  {
  }

  lemma SettleAside(h: Host, id: CallId, normally: bool, sid: SessionId, token: Token)
    requires id in h.calls && h.calls[id].Activating? && h.calls[id].sid in h.states
    requires !Serves(h.calls[id], sid, token)
    ensures Aside(h, SettleActivation(h, id, normally), sid, token)
  {
  }

  lemma SetStageAside(h: Host, g: Host, id: CallId, stage: Stage, sid: SessionId, token: Token)
    requires Aside(h, g, sid, token)
    requires id in g.calls && g.calls[id].Activating? && !Serves(g.calls[id], sid, token)
    ensures Aside(h, SetStage(g, id, stage), sid, token)
  {
  }

  lemma InstallingAside(h: Host, id: CallId, route: Route, outcome: Outcome, sid: SessionId, token: Token)
    requires id in h.calls && h.calls[id].Activating? && h.calls[id].sid in h.states && !Serves(h.calls[id], sid, token)
    requires h.calls[id].stage == ClosingLease(route) || h.calls[id].stage == SettingProxy(route)
    requires InstallOf(h, Resumed(id, outcome), sid).None?
    ensures Aside(h, ResumeActivation(h, id, outcome), sid, token)
  {
  }

  lemma ResolvingAside(h: Host, id: CallId, outcome: Outcome, sid: SessionId, token: Token)
    requires id in h.calls && h.calls[id].Activating? && h.calls[id].sid in h.states && h.calls[id].stage.Resolving?
    requires !Serves(h.calls[id], sid, token) && (h.calls[id].sid != sid || h.states[sid].fenceToken == Some(token))
    ensures Aside(h, ResumeActivation(h, id, outcome), sid, token)
  {
  }

  lemma FinishAside(h: Host, id: CallId, sid: SessionId, token: Token)
    requires id in h.calls && h.calls[id].Activating? && h.calls[id].sid in h.states && h.calls[id].stage.Loaded?
    requires !Serves(h.calls[id], sid, token) && (h.calls[id].sid != sid || h.states[sid].fenceToken == Some(token))
    ensures Aside(h, FinishActivation(h, id), sid, token)
  {
  }

  lemma LoadingAside(h: Host, id: CallId, outcome: Outcome, sid: SessionId, token: Token)
    requires id in h.calls && h.calls[id].Activating? && h.calls[id].sid in h.states && h.calls[id].stage.Loading?
    requires !Serves(h.calls[id], sid, token)
    ensures Aside(h, ResumeActivation(h, id, outcome), sid, token)
  {
  }

  /** Another lease of the session has lost its fence: it can drop the view, not attach one. */
  lemma StaleActivationAside(h: Host, id: CallId, outcome: Outcome, sid: SessionId, token: Token)
    requires id in h.calls && h.calls[id].Activating? && h.calls[id].sid in h.states
    requires !Serves(h.calls[id], sid, token) && (h.calls[id].sid != sid || h.states[sid].fenceToken == Some(token))
    requires InstallOf(h, Resumed(id, outcome), sid).None?
    ensures Aside(h, ResumeActivation(h, id, outcome), sid, token)
  {
    var c := h.calls[id];
    SameAside(h, h, sid, token);
    match c.stage {
      case Resolving => ResolvingAside(h, id, outcome, sid, token);
      case Releasing =>
        SetStageAside(h, h, id, Returning(!outcome.Rejected? && h.states[c.sid].fenceToken == Some(c.token)), sid,
                      token);
      case ClosingLease(route) => InstallingAside(h, id, route, outcome, sid, token);
      case SettingProxy(route) => InstallingAside(h, id, route, outcome, sid, token);
      case Loading(_, _) => LoadingAside(h, id, outcome, sid, token);
      case Loaded => FinishAside(h, id, sid, token);
      case Returning(normally) => SettleAside(h, id, normally, sid, token);
    }
  }

  lemma ActivationAside(h: Host, id: CallId, outcome: Outcome, sid: SessionId, token: Token)
    requires id in h.calls && h.calls[id].Activating? && h.calls[id].sid in h.states && token < h.next
    requires !Serves(h.calls[id], sid, token) && InstallOf(h, Resumed(id, outcome), sid).None?
    ensures Aside(h, ResumeActivation(h, id, outcome), sid, token)
  {
    if h.calls[id].sid != sid || FenceOf(h, sid) == Some(token) {
      StaleActivationAside(h, id, outcome, sid, token);
    } else {
      ActivationFrame(h, id, outcome);
    }
  }

  lemma ReloadAside(h: Host, id: CallId, outcome: Outcome, sid: SessionId, token: Token)
    requires id in h.calls && h.calls[id].Reloading? && h.calls[id].sid in h.states
    ensures Aside(h, ResumeReload(h, id, outcome), sid, token)
  {
  }

  lemma ResumeShowAside(h: Host, id: CallId, sid: SessionId, token: Token)
    requires Inv(h) && token < h.next && id in h.calls && h.calls[id].ShowAfterCommit? && h.calls[id].sid in h.states
    ensures Aside(h, ResumeShow(h, id), sid, token)
  {
    EndCallAside(h, id, sid, token);
    EndCallKeeps(h, id);
    var g := ResumeShow(h, id);
    if g != EndCall(h, id) {
      ShowAside(EndCall(h, id), h.states[h.calls[id].sid].requestedShow.value, sid, token);
      AsideTwice(h, EndCall(h, id), g, sid, token);
    }
  }

  lemma ResumeCloseAside(h: Host, id: CallId, outcome: Outcome, sid: SessionId, token: Token)
    requires id in h.calls && h.calls[id].Closing? && h.calls[id].sid in h.states
    ensures Aside(h, ResumeClose(h, id, outcome), sid, token)
  {
  }

  /** Where an activation first stands is before anything it would install. */
  lemma CommitAside(h: Host, lease: CallId, identity: Identity, sid: SessionId, token: Token)
    requires h.next !in h.calls && lease in h.calls && h.calls[lease].Leased? && h.calls[lease].sid in h.states
    requires !Serves(h.calls[lease], sid, token)
    ensures Aside(h, NewCall(h, Activation(h, h.calls[lease], identity)), sid, token)
    ensures Aside(h, h.(calls := h.calls[lease := Activation(h, h.calls[lease], identity)]), sid, token)
  {
  }

  lemma RollbackAside(h: Host, lease: CallId, sid: SessionId, token: Token)
    requires h.next !in h.calls && lease in h.calls && h.calls[lease].Leased? && h.calls[lease].sid in h.states
    requires !Serves(h.calls[lease], sid, token)
    ensures Aside(h, Rollback(h, lease), sid, token)
  {
  }

  /** The event is the lease's own: it drives the lease, or one of its calls goes on. */
  predicate Own(h: Host, e: Event, sid: SessionId, token: Token) {
    match e
    case CommitCalled(lease) => lease in h.calls && Serves(h.calls[lease], sid, token)
    case RollbackCalled(lease) => lease in h.calls && Serves(h.calls[lease], sid, token)
    case Resumed(call, _) => call in h.calls && Serves(h.calls[call], sid, token)
    case _ => false
  }

  lemma ResumedAside(h: Host, id: CallId, outcome: Outcome, sid: SessionId, token: Token)
    requires Inv(h) && CanHappen(h, Resumed(id, outcome)) && token < h.next && !Serves(h.calls[id], sid, token)
    requires InstallOf(h, Resumed(id, outcome), sid).None?
    ensures Aside(h, Step(h, Resumed(id, outcome)), sid, token)
  {
    match h.calls[id] {
      case Beginning(_, _, _, _, _, _) => BeginAside(h, id, outcome, sid, token);
      case Leased(_, _, candidate, _, _) => CommitAside(h, id, candidate, sid, token);
      case Activating(_, _, _, _, _) => ActivationAside(h, id, outcome, sid, token);
      case ShowAfterCommit(_) => ResumeShowAside(h, id, sid, token);
      case Reloading(_, _, _) => ReloadAside(h, id, outcome, sid, token);
      case Closing(_, _) => ResumeCloseAside(h, id, outcome, sid, token);
    }
  }

  lemma OtherStepAside(h: Host, e: Event, sid: SessionId, token: Token)
    requires Inv(h) && CanHappen(h, e) && token < h.next && !Own(h, e, sid, token)
    requires InstallOf(h, e, sid).None?
    ensures Aside(h, Step(h, e), sid, token)
  {
    match e {
      case AttachWindow(id, zoom, width, height) =>
        SameAside(h, h, sid, token);
        AttachWindowAside(h, Window(id, false, zoom, width, height, {}), sid, token);
      case DetachWindow => DetachAside(h, sid, token);
      case RendererReset => ResetAside(h, sid, token);
      case GenerationUnavailable(generationId) =>
        DeactivateAllAside(h, SessionsOf(h, generationId), true, sid, token);
      case BeginCalled(designId, candidate, replaced) =>
        BeginCutoverAside(h, designId, candidate, replaced, sid, token);
      case ShowCalled(input) => ShowAside(h, input, sid, token);
      case RefreshCalled(designId, generationId, requestId) =>
        RefreshAside(h, designId, generationId, requestId, sid, token);
      case CommitCalled(lease) => CommitAside(h, lease, h.calls[lease].candidate, sid, token);
      case RollbackCalled(lease) => RollbackAside(h, lease, sid, token);
      case HideCalled(designId, requestId) => HideAside(h, designId, requestId, sid, token);
      case CloseCalled(designId) => CloseAside(h, designId, sid, token);
      case ApproveCalled(designId, linkId) => ApproveAside(h, designId, linkId, sid, token);
      case Resumed(call, outcome) => ResumedAside(h, call, outcome, sid, token);
      case _ => SurroundingsAside(h, e, sid, token);
    }
  }
}
