/**
 * What every interleaving of the canvas host keeps: at most one design is requested, only
 * a requested design's view is attached, and a closing session takes no request.
 */
module CanvasSafety {
  import opened Wrappers
  import opened CanvasBounds
  import opened DesignCanvas

  predicate SessionOk(s: Session) {
    && (s.attached ==> s.view.Some? && s.requestedShow.Some?)
    && (s.requestedShow.Some? ==>
          s.requestedShow.value.designId == s.designId && s.requestedShow.value.requestId <= s.requestId)
    && (s.closing ==> s.requestedShow.None?)
  }

  predicate MapsTo(h: Host, sid: SessionId, s: Session) {
    s.designId in h.sessions && h.sessions[s.designId] == sid
  }

  predicate RequestedIn(h: Host, sid: SessionId) {
    sid in h.states && h.states[sid].requestedShow.Some?
  }

  predicate Closes(h: Host, id: CallId) {
    id in h.calls && h.calls[id].Closing?
  }

  ghost predicate StatesInv(h: Host) {
    && (forall d :: d in h.sessions ==>
          h.sessions[d] in h.states && h.states[h.sessions[d]].designId == d &&
          h.states[h.sessions[d]].rendererEpoch == h.rendererEpoch)
    && (forall sid :: sid in h.states ==>
          sid < h.next && SessionOk(h.states[sid]) && (!h.states[sid].closing ==> MapsTo(h, sid, h.states[sid])))
    && (forall a, b :: RequestedIn(h, a) && RequestedIn(h, b) ==> a == b)
  }

  /** A call that works for a lease came after the token it was given. */
  predicate TokenOk(id: CallId, c: Call) {
    c.Beginning? || c.Leased? || c.Activating? ==> c.token < id
  }

  /** A call works on a known session; a close in flight is the only one of its session, which is still mapped. */
  ghost predicate CallsInv(h: Host) {
    && (forall id :: id in h.calls ==> id < h.next && h.calls[id].sid in h.states && TokenOk(id, h.calls[id]))
    && (forall id :: id in h.calls && h.calls[id].Closing? ==>
          h.states[h.calls[id].sid].closing && MapsTo(h, h.calls[id].sid, h.states[h.calls[id].sid]))
    && (forall i, j :: Closes(h, i) && Closes(h, j) && h.calls[i].sid == h.calls[j].sid ==> i == j)
  }

  ghost predicate Inv(h: Host) {
    StatesInv(h) && CallsInv(h)
  }

  lemma AskedKeeps(h: Host, g: Host)
    requires StatesInv(h) && forall sid :: RequestedIn(g, sid) ==> RequestedIn(h, sid)
    ensures forall a, b :: RequestedIn(g, a) && RequestedIn(g, b) ==> a == b
  {
  }

  lemma ClosesKeep(h: Host, g: Host)
    requires CallsInv(h) && forall id :: Closes(g, id) ==> Closes(h, id) && g.calls[id].sid == h.calls[id].sid
    ensures forall i, j :: Closes(g, i) && Closes(g, j) && g.calls[i].sid == g.calls[j].sid ==> i == j
  {
  }

  // ----- Steps that request nothing -----

  /** A session change that makes no request, no attachment without one, and forgets no accepted request id. */
  predicate Tame(s: Session, t: Session) {
    && t.designId == s.designId && t.rendererEpoch == s.rendererEpoch && t.closing == s.closing
    && s.requestId <= t.requestId
    && (t.requestedShow == s.requestedShow || t.requestedShow.None?)
    && (t.attached ==> t.view.Some? && t.requestedShow.Some?)
  }

  ghost predicate TameStep(h: Host, g: Host) {
    && g.sessions == h.sessions && g.rendererEpoch == h.rendererEpoch && h.next <= g.next
    && g.states.Keys == h.states.Keys
    && forall sid :: sid in h.states ==> Tame(h.states[sid], g.states[sid])
  }

  /** Calls stay as they were, or are or become other calls than a close. */
  ghost predicate QuietCalls(h: Host, g: Host) {
    forall id :: id in g.calls ==>
      (id in h.calls && g.calls[id] == h.calls[id]) ||
      (id < g.next && g.calls[id].sid in h.states && TokenOk(id, g.calls[id]) && !g.calls[id].Closing?)
  }

  lemma TameStates(h: Host, g: Host)
    requires StatesInv(h) && TameStep(h, g)
    ensures StatesInv(g)
  {
    AskedKeeps(h, g);
  }

  lemma QuietKeeps(h: Host, g: Host)
    requires Inv(h) && TameStep(h, g) && QuietCalls(h, g)
    ensures Inv(g)
  {
    TameStates(h, g);
    ClosesKeep(h, g);
  }

  /** One session changes tamely, and its calls not at all. */
  lemma OneKeeps(h: Host, g: Host, sid: SessionId)
    requires Inv(h) && sid in h.states && sid in g.states && Tame(h.states[sid], g.states[sid])
    requires g.states == h.states[sid := g.states[sid]] && g.sessions == h.sessions &&
             g.rendererEpoch == h.rendererEpoch
    requires h.next <= g.next && g.calls == h.calls
    ensures Inv(g)
  {
    AskedKeeps(h, g);
    ClosesKeep(h, g);
  }

  lemma PutKeeps(h: Host, sid: SessionId, t: Session)
    requires Inv(h) && sid in h.states && Tame(h.states[sid], t)
    ensures Inv(Put(h, sid, t))
  {
    OneKeeps(h, Put(h, sid, t), sid);
  }

  /** Other calls leave the sessions as they are. */
  lemma CallsAside(h: Host, calls: map<CallId, Call>)
    requires StatesInv(h)
    ensures StatesInv(h.(calls := calls))
  {
    AskedKeeps(h, h.(calls := calls));
  }

  lemma SetCallCalls(h: Host, id: CallId, c: Call)
    requires CallsInv(h) && id in h.calls && c.sid in h.states && TokenOk(id, c) && !c.Closing?
    ensures CallsInv(h.(calls := h.calls[id := c]))
  {
    ClosesKeep(h, h.(calls := h.calls[id := c]));
  }

  lemma SetCallKeeps(h: Host, id: CallId, c: Call)
    requires Inv(h) && id in h.calls && c.sid in h.states && TokenOk(id, c) && !c.Closing?
    ensures Inv(h.(calls := h.calls[id := c]))
  {
    CallsAside(h, h.calls[id := c]);
    SetCallCalls(h, id, c);
  }

  lemma NewCallKeeps(h: Host, c: Call)
    requires Inv(h) && c.sid in h.states && TokenOk(h.next, c) && !c.Closing?
    ensures Inv(NewCall(h, c))
  {
    var g := NewCall(h, c);
    AskedKeeps(h, g);
    ClosesKeep(h, g);
  }

  lemma EndCallKeeps(h: Host, id: CallId)
    requires Inv(h)
    ensures Inv(EndCall(h, id))
  {
    var g := EndCall(h, id);
    AskedKeeps(h, g);
    ClosesKeep(h, g);
  }

  lemma DeactivateAllTame(h: Host, targets: set<SessionId>, preserveLinks: bool)
    requires forall sid :: sid in h.states ==> SessionOk(h.states[sid])
    ensures TameStep(h, DeactivateAll(h, targets, preserveLinks))
  {
  }

  lemma DeactivateAllKeeps(h: Host, targets: set<SessionId>, preserveLinks: bool)
    requires Inv(h)
    ensures Inv(DeactivateAll(h, targets, preserveLinks))
  {
    DeactivateAllTame(h, targets, preserveLinks);
    QuietKeeps(h, DeactivateAll(h, targets, preserveLinks));
  }

  lemma PlaceAndAttachKeeps(h: Host, sid: SessionId, bounds: Bounds)
    requires Inv(h) && sid in h.states && h.states[sid].requestedShow.Some?
    ensures Inv(PlaceAndAttach(h, sid, bounds))
  {
    OneKeeps(h, PlaceAndAttach(h, sid, bounds), sid);
  }

  lemma DropViewKeeps(h: Host, sid: SessionId)
    requires Inv(h) && sid in h.states
    ensures Inv(DropView(h, sid))
  {
    PutKeeps(h, sid, DestroyView(h.states[sid].(mode := DenyAll)));
  }

  lemma WithoutFenceKeeps(h: Host, sid: SessionId, token: Token)
    requires Inv(h) && sid in h.states
    ensures Inv(WithoutFence(h, sid, token))
  {
    if h.states[sid].fenceToken == Some(token) { OneKeeps(h, WithoutFence(h, sid, token), sid); }
  }

  lemma StartBeginKeeps(h: Host, sid: SessionId, candidate: Identity, replaced: Option<Identity>, byShow: bool)
    requires Inv(h) && sid in h.states
    ensures Inv(StartBegin(h, sid, candidate, replaced, byShow))
  {
    OneKeeps(h, Fence(h, sid), sid);
    NewCallKeeps(Fence(h, sid), Beginning(sid, h.next, candidate, replaced, byShow, None));
  }

  lemma BeginFailsKeeps(h: Host, id: CallId)
    requires Inv(h) && id in h.calls && h.calls[id].Beginning?
    ensures Inv(BeginFails(h, id))
  {
    var c := h.calls[id];
    WithoutFenceKeeps(h, c.sid, c.token);
    EndCallKeeps(WithoutFence(h, c.sid, c.token), id);
  }

  lemma BeginEndsKeeps(h: Host, id: CallId)
    requires Inv(h) && id in h.calls && h.calls[id].Beginning?
    ensures Inv(BeginEnds(h, id))
  {
    var c := h.calls[id];
    BeginFailsKeeps(h, id);
    SetCallKeeps(h, id, Leased(c.sid, c.token, c.candidate, c.replaced, c.byShow));
  }

  lemma ClearOriginsKeeps(h: Host, id: CallId, left: nat)
    requires Inv(h) && id in h.calls && h.calls[id].Beginning?
    ensures Inv(ClearOrigins(h, id, left))
  {
    BeginEndsKeeps(h, id);
    SetCallKeeps(h, id, h.calls[id].(originsLeft := Some(left)));
  }

  lemma ResumeBeginKeeps(h: Host, id: CallId, outcome: Outcome)
    requires Inv(h) && id in h.calls && h.calls[id].Beginning?
    ensures Inv(ResumeBegin(h, id, outcome))
  {
    var c := h.calls[id];
    if outcome.Rejected? {
      BeginFailsKeeps(h, id);
    } else if c.originsLeft.Some? {
      ClearOriginsKeeps(h, id, OneLess(c.originsLeft.value));
    } else {
      PutKeeps(h, c.sid, DestroyView(h.states[c.sid]));
      ClearOriginsKeeps(Put(h, c.sid, DestroyView(h.states[c.sid])), id, |h.states[c.sid].lastOrigins|);
    }
  }

  lemma SetStageKeeps(h: Host, id: CallId, stage: Stage)
    requires Inv(h) && id in h.calls && h.calls[id].Activating?
    ensures Inv(SetStage(h, id, stage))
  {
    SetCallKeeps(h, id, h.calls[id].(stage := stage));
  }

  lemma OpenedKeeps(h: Host, sid: SessionId, t: Session)
    requires Inv(h) && sid in h.states && Tame(h.states[sid], t)
    ensures Inv(h.(states := h.states[sid := t], next := h.next + 1)) && Inv(h.(states := h.states[sid := t]))
  {
    OneKeeps(h, h.(states := h.states[sid := t], next := h.next + 1), sid);
    OneKeeps(h, h.(states := h.states[sid := t]), sid);
  }

  lemma OpenOnlyKeeps(h: Host, id: CallId, route: Route)
    requires Inv(h) && id in h.calls && h.calls[id].Activating?
    ensures Inv(OpenOnly(h, id, route))
  {
    var c := h.calls[id];
    OpenedKeeps(h, c.sid, Opened(h.states[c.sid], route));
    SetStageKeeps(h.(states := h.states[c.sid := Opened(h.states[c.sid], route)]), id, Returning(false));
  }

  lemma InstallKeeps(h: Host, id: CallId, route: Route)
    requires Inv(h) && id in h.calls && h.calls[id].Activating?
    ensures Inv(Install(h, id, route))
  {
    var c := h.calls[id];
    var t := Opened(h.states[c.sid], route).(view := Some(View(h.next, false)));
    var viewed := h.(states := h.states[c.sid := t], next := h.next + 1);
    OpenedKeeps(h, c.sid, t);
    SetStageKeeps(viewed, id, Loading(h.next, route.identity.generationId));
    assert Install(h, id, route) == SetStage(viewed, id, Loading(h.next, route.identity.generationId));
  }

  lemma ActivateKeeps(h: Host, id: CallId, route: Route, outcome: Outcome)
    requires Inv(h) && id in h.calls && h.calls[id].Activating?
    ensures Inv(Activate(h, id, route, outcome))
  {
    if outcome.Viewless? { OpenOnlyKeeps(h, id, route); } else { InstallKeeps(h, id, route); }
  }

  lemma FinishActivationKeeps(h: Host, id: CallId)
    requires Inv(h) && id in h.calls && h.calls[id].Activating?
    ensures Inv(FinishActivation(h, id))
  {
    var c := h.calls[id];
    var s := h.states[c.sid];
    if s.fenceToken != Some(c.token) {
      SetStageKeeps(h, id, Returning(false));
    } else if !RequestedFor(s, c.identity) || !LiveView(s) {
      DropViewKeeps(h, c.sid);
      SetStageKeeps(DropView(h, c.sid), id, Returning(true));
    } else {
      PlaceAndAttachKeeps(h, c.sid, s.requestedShow.value.bounds);
      SetStageKeeps(PlaceAndAttach(h, c.sid, s.requestedShow.value.bounds), id, Returning(true));
    }
  }

  lemma SettleActivationKeeps(h: Host, id: CallId, normally: bool)
    requires Inv(h) && id in h.calls && h.calls[id].Activating?
    ensures Inv(SettleActivation(h, id, normally))
  {
    var c := h.calls[id];
    WithoutFenceKeeps(h, c.sid, c.token);
    var settled := WithoutFence(h, c.sid, c.token);
    EndCallKeeps(settled, id);
    SetCallKeeps(settled, id, ShowAfterCommit(c.sid));
  }

  lemma ResolveKeeps(h: Host, id: CallId, outcome: Outcome)
    requires Inv(h) && id in h.calls && h.calls[id].Activating? && h.calls[id].stage.Resolving?
    ensures Inv(ResumeActivation(h, id, outcome))
  {
    var c := h.calls[id];
    var s := h.states[c.sid];
    if outcome.Resolved? && s.fenceToken == Some(c.token) && RequestedFor(s, c.identity) && outcome.safe {
      PutKeeps(h, c.sid, DestroyView(s));
      SetStageKeeps(Put(h, c.sid, DestroyView(s)), id,
                    ClosingLease(Route(c.identity, outcome.origins, outcome.leased)));
    } else {
      SetStageKeeps(h, id, Returning(false));
      SetStageKeeps(h, id, Releasing);
    }
  }

  lemma LoadKeeps(h: Host, id: CallId, outcome: Outcome)
    requires Inv(h) && id in h.calls && h.calls[id].Activating? && h.calls[id].stage.Loading?
    ensures Inv(ResumeActivation(h, id, outcome))
  {
    var sid := h.calls[id].sid;
    DropViewKeeps(h, sid);
    SetStageKeeps(DropView(h, sid), id, Returning(false));
    SetStageKeeps(h, id, Loaded);
  }

  lemma ResumeActivationKeeps(h: Host, id: CallId, outcome: Outcome)
    requires Inv(h) && id in h.calls && h.calls[id].Activating?
    ensures Inv(ResumeActivation(h, id, outcome))
  {
    var c := h.calls[id];
    match c.stage {
      case Resolving => ResolveKeeps(h, id, outcome);
      case Releasing =>
        SetStageKeeps(h, id, Returning(!outcome.Rejected? && h.states[c.sid].fenceToken == Some(c.token)));
      case ClosingLease(route) =>
        if outcome.Rejected? { SetStageKeeps(h, id, Returning(false)); }
        else if route.leased { SetStageKeeps(h, id, SettingProxy(route)); }
        else { ActivateKeeps(h, id, route, outcome); }
      case SettingProxy(route) =>
        if outcome.Rejected? { SetStageKeeps(h, id, Returning(false)); } else { ActivateKeeps(h, id, route, outcome); }
      case Loading(_, _) => LoadKeeps(h, id, outcome);
      case Loaded => FinishActivationKeeps(h, id);
      case Returning(normally) => SettleActivationKeeps(h, id, normally);
    }
  }

  // ----- Steps that request, attach, close, or start an epoch -----

  lemma WithSessionStates(h: Host, designId: DesignId)
    requires StatesInv(h)
    ensures StatesInv(WithSession(h, designId))
  {
    AskedKeeps(h, WithSession(h, designId));
  }

  lemma WithSessionCalls(h: Host, designId: DesignId)
    requires CallsInv(h) && (forall sid :: sid in h.states ==> sid < h.next)
    ensures CallsInv(WithSession(h, designId))
  {
  }

  lemma WithSessionKeeps(h: Host, designId: DesignId)
    requires Inv(h)
    ensures Inv(WithSession(h, designId))
  {
    WithSessionStates(h, designId);
    WithSessionCalls(h, designId);
  }

  lemma OthersGiveWay(h: Host, designId: DesignId)
    requires Inv(h) && designId in h.sessions
    ensures var sid := h.sessions[designId];
            forall other :: other in h.states && other != sid ==>
              DeactivateAll(h, OtherSessions(h, designId) - {sid}, true).states[other].requestedShow.None?
  {
  }

  lemma OneRequested(h: Host, sid: SessionId, t: Session)
    requires Inv(h) && sid in h.states && !h.states[sid].closing && SessionOk(t)
    requires t.designId == h.states[sid].designId && t.closing == h.states[sid].closing &&
             t.rendererEpoch == h.states[sid].rendererEpoch
    requires forall other :: other in h.states && other != sid ==> h.states[other].requestedShow.None?
    ensures Inv(h.(states := h.states[sid := t]))
  {
  }

  lemma RequestKeeps(h: Host, input: Show)
    requires Inv(h) && input.designId in h.sessions
    requires var sid := h.sessions[input.designId];
             !h.states[sid].closing && Accepts(h.states[sid], h.rendererEpoch, input.requestId)
    ensures Inv(Request(h, h.sessions[input.designId], input))
  {
    var sid := h.sessions[input.designId];
    var targets := OtherSessions(h, input.designId) - {sid};
    DeactivateAllKeeps(h, targets, true);
    OthersGiveWay(h, input.designId);
    assert DeactivateAll(h, targets, true).states[sid] == h.states[sid];
    OneRequested(DeactivateAll(h, targets, true), sid,
                 h.states[sid].(requestId := input.requestId, requestedShow := Some(input)));
  }

  lemma PresentKeeps(h: Host, sid: SessionId, input: Show)
    requires Inv(h) && sid in h.states && h.states[sid].requestedShow.Some?
    ensures Inv(Present(h, sid, input))
  {
    var s := h.states[sid];
    var replaced := if s.active.Some? then Some(s.active.value.identity) else None;
    StartBeginKeeps(h, sid, input.identity, replaced, true);
    PlaceAndAttachKeeps(h, sid, input.bounds);
  }

  lemma ShowKeeps(h: Host, input: Show)
    requires Inv(h)
    ensures Inv(ShowDesign(h, input))
  {
    var sid := RequireSession(h, input.designId);
    if ValidIdentity(input.identity) && sid.Some? {
      var ready := WithSession(h, input.designId);
      WithSessionKeeps(h, input.designId);
      assert ready.sessions[input.designId] == sid.value;
      if Accepts(ready.states[sid.value], ready.rendererEpoch, input.requestId) {
        RequestKeeps(ready, input);
        PresentKeeps(Request(ready, sid.value, input), sid.value, input);
      }
    }
  }

  lemma BeginCutoverKeeps(h: Host, designId: DesignId, candidate: Identity, replaced: Option<Identity>)
    requires Inv(h)
    ensures Inv(BeginCutover(h, designId, candidate, replaced))
  {
    var sid := RequireSession(h, designId);
    if sid.Some? {
      WithSessionKeeps(h, designId);
      StartBeginKeeps(WithSession(h, designId), sid.value, candidate, replaced, false);
    }
  }

  lemma HideKeeps(h: Host, designId: DesignId, requestId: int)
    requires Inv(h)
    ensures Inv(Hide(h, designId, requestId))
  {
    if designId in h.sessions {
      var sid := h.sessions[designId];
      var s := h.states[sid];
      if Accepts(s, h.rendererEpoch, requestId) {
        PutKeeps(h, sid, Deactivate(s.(requestId := requestId), true, h.now));
      }
    }
  }

  lemma AcceptKeeps(h: Host, sid: SessionId, requestId: int)
    requires Inv(h) && sid in h.states && h.states[sid].requestId <= requestId
    ensures Inv(h.(states := h.states[sid := h.states[sid].(requestId := requestId)]))
  {
    OneKeeps(h, h.(states := h.states[sid := h.states[sid].(requestId := requestId)]), sid);
  }

  lemma RefreshKeeps(h: Host, designId: DesignId, generationId: string, requestId: int)
    requires Inv(h)
    ensures Inv(Refresh(h, designId, generationId, requestId))
  {
    if designId in h.sessions && Accepts(h.states[h.sessions[designId]], h.rendererEpoch, requestId) {
      var sid := h.sessions[designId];
      var s := h.states[sid];
      var accepted := h.(states := h.states[sid := s.(requestId := requestId)]);
      AcceptKeeps(h, sid, requestId);
      if s.requestedShow.Some? {
        if !LiveView(s) {
          ShowKeeps(accepted, s.requestedShow.value.(requestId := requestId));
        } else if s.active.Some? {
          NewCallKeeps(accepted, Reloading(sid, s.view.value.id, s.active.value.identity.generationId));
        }
      }
    }
  }

  lemma MarkedStates(h: Host, sid: SessionId)
    requires StatesInv(h) && sid in h.states && h.states[sid].requestedShow.None?
    ensures StatesInv(h.(states := h.states[sid := h.states[sid].(closing := true)], next := h.next + 1))
  {
    AskedKeeps(h, h.(states := h.states[sid := h.states[sid].(closing := true)], next := h.next + 1));
  }

  /** The new close is the only one of its session, which was not closing. */
  lemma NewClosing(h: Host, g: Host, sid: SessionId)
    requires CallsInv(h) && sid in h.states && !h.states[sid].closing && h.next !in h.calls
    requires g.calls == h.calls[h.next := Closing(sid, None)]
    ensures forall i, j :: Closes(g, i) && Closes(g, j) && g.calls[i].sid == g.calls[j].sid ==> i == j
  {
    forall i, j | Closes(g, i) && Closes(g, j) && g.calls[i].sid == g.calls[j].sid ensures i == j {
      assert i != h.next ==> Closes(h, i) && h.calls[i].sid != sid;
      assert j != h.next ==> Closes(h, j) && h.calls[j].sid != sid;
    }
  }

  lemma MarkedCalls(h: Host, sid: SessionId)
    requires Inv(h) && sid in h.states && !h.states[sid].closing
    ensures CallsInv(NewCall(h.(states := h.states[sid := h.states[sid].(closing := true)]), Closing(sid, None)))
  {
    var g := NewCall(h.(states := h.states[sid := h.states[sid].(closing := true)]), Closing(sid, None));
    NewClosing(h, g, sid);
    assert forall id :: id in h.calls && h.calls[id].Closing? ==> h.calls[id].sid != sid;
  }

  lemma MarkClosing(h: Host, sid: SessionId)
    requires Inv(h) && sid in h.states && !h.states[sid].closing && h.states[sid].requestedShow.None?
    ensures Inv(NewCall(h.(states := h.states[sid := h.states[sid].(closing := true)]), Closing(sid, None)))
  {
    MarkedStates(h, sid);
    MarkedCalls(h, sid);
    AskedKeeps(h, NewCall(h.(states := h.states[sid := h.states[sid].(closing := true)]), Closing(sid, None)));
  }

  lemma CloseKeeps(h: Host, designId: DesignId)
    requires Inv(h)
    ensures Inv(Close(h, designId))
  {
    if designId in h.sessions && !h.states[h.sessions[designId]].closing {
      var sid := h.sessions[designId];
      var t := Deactivate(h.states[sid], false, h.now);
      PutKeeps(h, sid, t);
      MarkClosing(Put(h, sid, t), sid);
      assert Put(h, sid, t.(closing := true)) ==
             Put(h, sid, t).(states := Put(h, sid, t).states[sid := t.(closing := true)]);
    }
  }

  lemma CloseFailsStates(h: Host, sid: SessionId)
    requires StatesInv(h) && sid in h.states && MapsTo(h, sid, h.states[sid])
    ensures StatesInv(h.(states := h.states[sid := h.states[sid].(closing := false)]))
  {
    AskedKeeps(h, h.(states := h.states[sid := h.states[sid].(closing := false)]));
  }

  lemma CloseFailsCalls(h: Host, id: CallId)
    requires CallsInv(h) && id in h.calls && h.calls[id].Closing?
    ensures CallsInv(ResumeClose(h, id, Rejected))
  {
    var g := ResumeClose(h, id, Rejected);
    ClosesKeep(h, g);
    forall k | Closes(g, k) ensures g.calls[k].sid != h.calls[id].sid {
      assert Closes(h, k) && Closes(h, id);
    }
    assert forall k :: k in g.calls && g.calls[k].Closing? ==> Closes(g, k);
  }

  lemma CloseFailsKeeps(h: Host, id: CallId)
    requires Inv(h) && id in h.calls && h.calls[id].Closing?
    ensures Inv(ResumeClose(h, id, Rejected))
  {
    CloseFailsStates(h, h.calls[id].sid);
    CloseFailsCalls(h, id);
    AskedKeeps(h, ResumeClose(h, id, Rejected));
  }

  lemma CloseGoesOnCalls(h: Host, id: CallId, left: nat)
    requires CallsInv(h) && id in h.calls && h.calls[id].Closing?
    ensures CallsInv(h.(calls := h.calls[id := Closing(h.calls[id].sid, Some(left))]))
  {
    ClosesKeep(h, h.(calls := h.calls[id := Closing(h.calls[id].sid, Some(left))]));
  }

  lemma CloseGoesOnKeeps(h: Host, id: CallId, left: nat)
    requires Inv(h) && id in h.calls && h.calls[id].Closing?
    ensures Inv(h.(calls := h.calls[id := Closing(h.calls[id].sid, Some(left))]))
  {
    CallsAside(h, h.calls[id := Closing(h.calls[id].sid, Some(left))]);
    CloseGoesOnCalls(h, id, left);
  }

  lemma UnmapStates(h: Host, sid: SessionId)
    requires StatesInv(h) && sid in h.states && h.states[sid].closing && MapsTo(h, sid, h.states[sid])
    ensures StatesInv(h.(sessions := h.sessions - {h.states[sid].designId}))
  {
    AskedKeeps(h, h.(sessions := h.sessions - {h.states[sid].designId}));
  }

  lemma UnmapCalls(h: Host, id: CallId)
    requires Inv(h) && id in h.calls && h.calls[id].Closing?
    ensures CallsInv(EndCall(h.(sessions := h.sessions - {h.states[h.calls[id].sid].designId}), id))
  {
    var g := EndCall(h.(sessions := h.sessions - {h.states[h.calls[id].sid].designId}), id);
    ClosesKeep(h, g);
    forall k | Closes(g, k) ensures g.calls[k].sid != h.calls[id].sid {
      assert Closes(h, k) && Closes(h, id);
    }
    assert forall k :: k in g.calls && g.calls[k].Closing? ==> Closes(g, k);
  }

  lemma UnmapKeeps(h: Host, id: CallId)
    requires Inv(h) && id in h.calls && h.calls[id].Closing?
    ensures Inv(EndCall(h.(sessions := h.sessions - {h.states[h.calls[id].sid].designId}), id))
  {
    var g := EndCall(h.(sessions := h.sessions - {h.states[h.calls[id].sid].designId}), id);
    UnmapStates(h, h.calls[id].sid);
    UnmapCalls(h, id);
    AskedKeeps(h, g);
  }

  lemma CloseOriginsKeeps(h: Host, id: CallId, left: nat)
    requires Inv(h) && id in h.calls && h.calls[id].Closing?
    ensures Inv(CloseOrigins(h, id, left))
  {
    var sid := h.calls[id].sid;
    CloseGoesOnKeeps(h, id, left);
    var forgotten :=
      h.(states := h.states[sid := h.states[sid].(active := None, fenceToken := None, pendingLinks := [])]);
    OneKeeps(h, forgotten, sid);
    UnmapKeeps(forgotten, id);
  }

  lemma ResumeCloseKeeps(h: Host, id: CallId, outcome: Outcome)
    requires Inv(h) && id in h.calls && h.calls[id].Closing?
    ensures Inv(ResumeClose(h, id, outcome))
  {
    var c := h.calls[id];
    if outcome.Rejected? {
      CloseFailsKeeps(h, id);
    } else {
      CloseOriginsKeeps(h, id,
                        if c.originsLeft.Some? then OneLess(c.originsLeft.value) else |h.states[c.sid].lastOrigins|);
    }
  }

  lemma NextEpochStates(h: Host)
    requires StatesInv(h) && forall sid :: sid in Mapped(h) ==> h.states[sid].requestedShow.None?
    ensures StatesInv(NextEpoch(h))
  {
    AskedKeeps(h, NextEpoch(h));
  }

  lemma NextEpochCalls(h: Host)
    requires CallsInv(h)
    ensures CallsInv(NextEpoch(h))
  {
    ClosesKeep(h, NextEpoch(h));
  }

  lemma NextEpochKeeps(h: Host)
    requires Inv(h) && forall sid :: sid in Mapped(h) ==> h.states[sid].requestedShow.None?
    ensures Inv(NextEpoch(h))
  {
    NextEpochStates(h);
    NextEpochCalls(h);
  }

  lemma DetachTame(h: Host)
    requires Inv(h)
    ensures TameStep(h, Detach(h))
  {
    assert forall sid :: sid in h.states ==> Tame(h.states[sid], Detach(h).states[sid]);
  }

  lemma DetachKeeps(h: Host)
    requires Inv(h)
    ensures Inv(Detach(h)) && Mapped(Detach(h)) == Mapped(h)
    ensures forall sid :: sid in Mapped(h) ==> Detach(h).states[sid].requestedShow.None?
  {
    DetachTame(h);
    QuietKeeps(h, Detach(h));
  }

  lemma ResetKeeps(h: Host)
    requires Inv(h)
    ensures Inv(NextEpoch(DeactivateAll(h, Mapped(h), false)))
  {
    var off := DeactivateAll(h, Mapped(h), false);
    DeactivateAllKeeps(h, Mapped(h), false);
    assert Mapped(off) == Mapped(h);
    NextEpochKeeps(off);
  }

  lemma AttachWindowKeeps(h: Host, w: Window)
    requires Inv(h)
    ensures Inv(NextEpoch(Detach(h)).(window := Some(w)))
  {
    DetachKeeps(h);
    NextEpochKeeps(Detach(h));
    QuietWindow(NextEpoch(Detach(h)), NextEpoch(Detach(h)).(window := Some(w)));
  }

  lemma RollbackKeeps(h: Host, leaseId: CallId)
    requires Inv(h) && leaseId in h.calls && h.calls[leaseId].Leased?
    ensures Inv(Rollback(h, leaseId))
  {
    var lease := h.calls[leaseId];
    var s := h.states[lease.sid];
    if lease.replaced.Some? {
      NewCallKeeps(h, Activation(h, lease, lease.replaced.value));
    } else if s.fenceToken != Some(lease.token) {
      NewCallKeeps(h, Activating(lease.sid, lease.token, lease.candidate, false, Returning(false)));
    } else {
      OneKeeps(h, Rollback(h, leaseId), lease.sid);
    }
  }

  lemma RequestLinkKeeps(h: Host, sid: SessionId, lifetime: int)
    requires Inv(h) && sid in h.states
    ensures Inv(RequestLink(h, sid, lifetime))
  {
    OneKeeps(h, RequestLink(h, sid, lifetime), sid);
  }

  lemma ViewDestroyedKeeps(h: Host, sid: SessionId)
    requires Inv(h) && sid in h.states
    ensures Inv(Step(h, ViewDestroyed(sid)))
  {
    var s := h.states[sid];
    if s.view.Some? {
      OneKeeps(h, h.(states := h.states[sid := s.(view := Some(s.view.value.(destroyed := true)))]), sid);
    }
  }

  lemma SurroundingsKeep(h: Host, e: Event)
    requires Inv(h) && CanHappen(h, e)
    requires e.LinkRequested? || e.ViewDestroyed? || e.WindowDestroyed? || e.WindowResized? || e.TimePasses?
    ensures Inv(Step(h, e))
  {
    if e.LinkRequested? {
      RequestLinkKeeps(h, e.sid, e.lifetime);
    } else if e.ViewDestroyed? {
      ViewDestroyedKeeps(h, e.sid);
    } else {
      QuietWindow(h, Step(h, e));
    }
  }

  lemma ApproveKeeps(h: Host, designId: DesignId, linkId: nat)
    requires Inv(h)
    ensures Inv(Approve(h, designId, linkId))
  {
    var g := Approve(h, designId, linkId);
    if g != h { OneKeeps(h, g, h.sessions[designId]); }
  }

  lemma ShowGoesOnKeeps(h: Host, id: CallId)
    requires Inv(h) && id in h.calls && h.calls[id].ShowAfterCommit?
    ensures Inv(ResumeShow(h, id))
  {
    var s := h.states[h.calls[id].sid];
    EndCallKeeps(h, id);
    if s.requestedShow.Some? { ShowKeeps(EndCall(h, id), s.requestedShow.value); }
  }

  lemma ReloadKeeps(h: Host, id: CallId, outcome: Outcome)
    requires Inv(h) && id in h.calls && h.calls[id].Reloading?
    ensures Inv(ResumeReload(h, id, outcome))
  {
    var sid := h.calls[id].sid;
    DropViewKeeps(h, sid);
    EndCallKeeps(DropView(h, sid), id);
    EndCallKeeps(h, id);
  }

  lemma ResumedKeeps(h: Host, id: CallId, outcome: Outcome)
    requires Inv(h) && CanHappen(h, Resumed(id, outcome))
    ensures Inv(Step(h, Resumed(id, outcome)))
  {
    var c := h.calls[id];
    match c {
      case Beginning(_, _, _, _, _, _) => ResumeBeginKeeps(h, id, outcome);
      case Leased(_, _, candidate, _, _) => SetCallKeeps(h, id, Activation(h, c, candidate));
      case Activating(_, _, _, _, _) => ResumeActivationKeeps(h, id, outcome);
      case ShowAfterCommit(_) => ShowGoesOnKeeps(h, id);
      case Reloading(_, _, _) => ReloadKeeps(h, id, outcome);
      case Closing(_, _) => ResumeCloseKeeps(h, id, outcome);
    }
  }

  /** Every step of every interleaving keeps the invariant. */
  lemma StepKeeps(h: Host, e: Event)
    requires Inv(h) && CanHappen(h, e)
    ensures Inv(Step(h, e))
  {
    match e {
      case AttachWindow(id, zoom, width, height) => AttachWindowKeeps(h, Window(id, false, zoom, width, height, {}));
      case DetachWindow => DetachKeeps(h);
      case BeginCalled(designId, candidate, replaced) => BeginCutoverKeeps(h, designId, candidate, replaced);
      case CommitCalled(lease) => NewCallKeeps(h, Activation(h, h.calls[lease], h.calls[lease].candidate));
      case RollbackCalled(lease) => RollbackKeeps(h, lease);
      case ShowCalled(input) => ShowKeeps(h, input);
      case HideCalled(designId, requestId) => HideKeeps(h, designId, requestId);
      case RefreshCalled(designId, generationId, requestId) => RefreshKeeps(h, designId, generationId, requestId);
      case CloseCalled(designId) => CloseKeeps(h, designId);
      case ApproveCalled(designId, linkId) => ApproveKeeps(h, designId, linkId);
      case GenerationUnavailable(generationId) =>
        DeactivateAllKeeps(h, SessionsOf(h, generationId), true);
      case RendererReset => ResetKeeps(h);
      case Resumed(call, outcome) => ResumedKeeps(h, call, outcome);
      case _ => SurroundingsKeep(h, e);
    }
  }

  lemma QuietWindow(h: Host, g: Host)
    requires Inv(h)
    requires g.states == h.states && g.sessions == h.sessions && g.rendererEpoch == h.rendererEpoch &&
             g.calls == h.calls && g.next == h.next
    ensures Inv(g)
  {
    AskedKeeps(h, g);
    ClosesKeep(h, g);
  }

  lemma {:induction false} RunKeeps(events: seq<Event>, hosts: seq<Host>, i: nat)
    requires Run(events, hosts) && i < |hosts|
    ensures Inv(hosts[i])
  {
    if i > 0 {
      RunKeeps(events, hosts, i - 1);
      StepKeeps(hosts[i - 1], events[i - 1]);
    }
  }

  predicate ShownIn(h: Host, sid: SessionId) {
    sid in h.states && h.states[sid].attached
  }

  /**
   * In every reachable state at most one design is requested, an attached session has a
   * view and is the one requested, and so at most one design's view is attached.
   */
  lemma OneDesignAttached(events: seq<Event>, hosts: seq<Host>, i: nat)
    requires Run(events, hosts) && i < |hosts|
    ensures forall sid :: ShownIn(hosts[i], sid) ==> RequestedIn(hosts[i], sid) && hosts[i].states[sid].view.Some?
    ensures forall a, b :: RequestedIn(hosts[i], a) && RequestedIn(hosts[i], b) ==> a == b
    ensures forall a, b :: ShownIn(hosts[i], a) && ShownIn(hosts[i], b) ==> a == b
  {
    RunKeeps(events, hosts, i);
    forall sid | ShownIn(hosts[i], sid) ensures RequestedIn(hosts[i], sid) {
      assert SessionOk(hosts[i].states[sid]);
    }
  }

  /** While a close is in flight its session is requested by nobody and has nothing attached. */
  lemma ClosingTakesNothing(events: seq<Event>, hosts: seq<Host>, i: nat, call: CallId)
    requires Run(events, hosts) && i < |hosts| && call in hosts[i].calls && hosts[i].calls[call].Closing?
    ensures var sid := hosts[i].calls[call].sid;
            sid in hosts[i].states && hosts[i].states[sid].requestedShow.None? && !hosts[i].states[sid].attached
  {
    RunKeeps(events, hosts, i);
    assert SessionOk(hosts[i].states[hosts[i].calls[call].sid]);
  }

  /** Every mapped session is of the renderer's epoch, and what it shows was accepted no later than its last request. */
  lemma EpochsAgree(events: seq<Event>, hosts: seq<Host>, i: nat, designId: DesignId)
    requires Run(events, hosts) && i < |hosts| && designId in hosts[i].sessions
    ensures hosts[i].sessions[designId] in hosts[i].states
    ensures var s := hosts[i].states[hosts[i].sessions[designId]];
            && s.designId == designId && s.rendererEpoch == hosts[i].rendererEpoch
            && (s.requestedShow.Some? ==>
                  s.requestedShow.value.designId == designId && s.requestedShow.value.requestId <= s.requestId)
  {
    RunKeeps(events, hosts, i);
    assert SessionOk(hosts[i].states[hosts[i].sessions[designId]]);
  }
}
