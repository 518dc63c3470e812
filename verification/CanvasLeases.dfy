/**
 * What a cutover lease guarantees: what its session shows when its activation returns
 * normally, exactly, and that without its fence it attaches nothing for good.
 */
module CanvasLeases {
  import opened Wrappers
  import opened CanvasBounds
  import opened DesignCanvas
  import opened CanvasSafety
  import opened CanvasFrames
  import opened CanvasFences

  // ----- What holds while the fence stands -----

  ghost predicate SoleCalls(h: Host, sid: SessionId, token: Token) {
    forall i, j :: i in h.calls && j in h.calls && Serves(h.calls[i], sid, token) && Serves(h.calls[j], sid, token) ==>
      (Sole(h.calls[i]) ==> i == j)
  }

  /** The lease's activations make their own routes active, and once past that some route has been. */
  predicate DriverOk(c: Call, last: Option<Identity>) {
    && (c.Activating? && (c.stage.ClosingLease? || c.stage.SettingProxy?) ==> c.stage.route.identity == c.identity)
    && (c.Activating? && (c.stage.Loading? || c.stage.Loaded?) ==> last.Some?)
  }

  ghost predicate DriversOk(h: Host, sid: SessionId, token: Token, last: Option<Identity>) {
    forall id :: id in h.calls && Serves(h.calls[id], sid, token) ==> DriverOk(h.calls[id], last)
  }

  /** Only making a route active opens the network, and only with it open a view is set. */
  predicate OpenOk(s: Session, last: Option<Identity>) {
    && (last.Some? ==> s.active.Some? && s.active.value.identity == last.value)
    && (s.mode == AllowRoutes ==> last.Some?)
  }

  /**
   * What holds of a session while a lease's token is its fence; `last` is the identity
   * whose route was made active last since the lease began.
   */
  ghost predicate Held(h: Host, sid: SessionId, token: Token, last: Option<Identity>)
    requires sid in h.states
  {
    && SoleCalls(h, sid, token) && DriversOk(h, sid, token, last) && OpenOk(h.states[sid], last)
    && (!Opening(h, sid, token) && h.states[sid].view.Some? ==> h.states[sid].mode == AllowRoutes)
  }

  ghost predicate LeaseInv(h: Host, sid: SessionId, token: Token, last: Option<Identity>) {
    FenceOf(h, sid) == Some(token) ==> Held(h, sid, token, last)
  }

  function Latest(h: Host, e: Event, sid: SessionId, last: Option<Identity>): Option<Identity> {
    if InstallOf(h, e, sid).Some? then InstallOf(h, e, sid) else last
  }

  lemma AsideOpening(h: Host, g: Host, sid: SessionId, token: Token)
    requires SameCalls(h, g, sid, token) && Opening(h, sid, token)
    ensures Opening(g, sid, token)
  {
    var id :| id in h.calls && Serves(h.calls[id], sid, token) && h.calls[id].Beginning? &&
        h.calls[id].originsLeft.None?;
    assert g.calls[id] == h.calls[id];
  }

  lemma AsideKeeps(h: Host, g: Host, sid: SessionId, token: Token, last: Option<Identity>)
    requires LeaseInv(h, sid, token, last) && Aside(h, g, sid, token)
    ensures LeaseInv(g, sid, token, last)
  {
    if FenceOf(g, sid) == Some(token) && Opening(h, sid, token) { AsideOpening(h, g, sid, token); }
  }

  lemma ActivateOver(h: Host, id: CallId, route: Route, outcome: Outcome, sid: SessionId, token: Token,
                     last: Option<Identity>)
    requires id in h.calls && h.calls[id].Activating? && h.calls[id].sid == sid && sid in h.states
    requires LeaseInv(h, sid, token, last) && !Serves(h.calls[id], sid, token)
    ensures LeaseInv(Activate(h, id, route, outcome), sid, token, Some(route.identity))
  {
    var g := Activate(h, id, route, outcome);
    assert SameCalls(h, g, sid, token);
    if Opening(h, sid, token) { AsideOpening(h, g, sid, token); }
  }

  /** An older activation of the session makes its route active although it has lost the fence. */
  lemma InstalledOver(h: Host, id: CallId, outcome: Outcome, sid: SessionId, token: Token, last: Option<Identity>)
    requires id in h.calls && h.calls[id].Activating? && sid in h.states && LeaseInv(h, sid, token, last)
    requires !Serves(h.calls[id], sid, token) && InstallOf(h, Resumed(id, outcome), sid).Some?
    ensures LeaseInv(ResumeActivation(h, id, outcome), sid, token, InstallOf(h, Resumed(id, outcome), sid))
  {
    ActivateOver(h, id, h.calls[id].stage.route, outcome, sid, token, last);
  }

  // ----- The lease's own steps -----

  /** One call of the lease becomes another that works for it, and the session changes only as it may. */
  lemma Becomes(h: Host, g: Host, id: CallId, sid: SessionId, token: Token, last: Option<Identity>,
                now: Option<Identity>)
    requires sid in h.states && sid in g.states && Held(h, sid, token, last) && (last.Some? ==> now.Some?)
    requires id in g.calls && g.calls == h.calls[id := g.calls[id]] && Serves(g.calls[id], sid, token)
    requires id in h.calls && Serves(h.calls[id], sid, token) && (Sole(g.calls[id]) ==> Sole(h.calls[id]))
    requires DriverOk(g.calls[id], now) && OpenOk(g.states[sid], now)
    requires g.states[sid].view.Some? ==> g.states[sid].mode == AllowRoutes
    ensures Held(g, sid, token, now)
  {
  }

  lemma OwnBegin(h: Host, id: CallId, outcome: Outcome, sid: SessionId, token: Token, last: Option<Identity>)
    requires id in h.calls && h.calls[id].Beginning? && Serves(h.calls[id], sid, token) && sid in h.states
    requires LeaseInv(h, sid, token, last)
    ensures LeaseInv(ResumeBegin(h, id, outcome), sid, token, last)
  {
    var g := ResumeBegin(h, id, outcome);
    if FenceOf(g, sid) == Some(token) {
      assert h.states[sid].fenceToken == Some(token);
      if h.calls[id].originsLeft.Some? { NotOpening(h, id, sid, token); }
      Becomes(h, g, id, sid, token, last, last);
    }
  }

  /** Beside a call of the lease that is past waiting for the connections, none waits for them. */
  lemma NotOpening(h: Host, id: CallId, sid: SessionId, token: Token)
    requires id in h.calls && Serves(h.calls[id], sid, token) && SoleCalls(h, sid, token)
    requires h.calls[id].Beginning? ==> h.calls[id].originsLeft.Some?
    ensures !Opening(h, sid, token)
  {
  }

  lemma OwnShow(h: Host, id: CallId, sid: SessionId, token: Token, last: Option<Identity>)
    requires id in h.calls && h.calls[id].Leased? && h.calls[id].byShow && Serves(h.calls[id], sid, token) &&
             sid in h.states
    requires LeaseInv(h, sid, token, last)
    ensures LeaseInv(h.(calls := h.calls[id := Activation(h, h.calls[id], h.calls[id].candidate)]), sid, token, last)
  {
    if FenceOf(h, sid) == Some(token) {
      NotOpening(h, id, sid, token);
      Becomes(h, h.(calls := h.calls[id := Activation(h, h.calls[id], h.calls[id].candidate)]), id, sid, token, last,
              last);
    }
  }

  lemma OwnDrive(h: Host, lease: CallId, identity: Identity, sid: SessionId, token: Token, last: Option<Identity>)
    requires lease in h.calls && h.calls[lease].Leased? && Serves(h.calls[lease], sid, token) && sid in h.states
    requires h.next !in h.calls && LeaseInv(h, sid, token, last) && !h.calls[lease].byShow
    ensures LeaseInv(NewCall(h, Activation(h, h.calls[lease], identity)), sid, token, last)
  {
    if FenceOf(h, sid) == Some(token) { NotOpening(h, lease, sid, token); }
  }

  lemma OwnRollback(h: Host, lease: CallId, sid: SessionId, token: Token, last: Option<Identity>)
    requires lease in h.calls && h.calls[lease].Leased? && Serves(h.calls[lease], sid, token) && sid in h.states
    requires h.next !in h.calls && LeaseInv(h, sid, token, last) && !h.calls[lease].byShow
    ensures LeaseInv(Rollback(h, lease), sid, token, last)
  {
    if h.calls[lease].replaced.Some? { OwnDrive(h, lease, h.calls[lease].replaced.value, sid, token, last); }
  }

  lemma OwnInstalling(h: Host, id: CallId, outcome: Outcome, sid: SessionId, token: Token, last: Option<Identity>)
    requires id in h.calls && h.calls[id].Activating? && Serves(h.calls[id], sid, token) && sid in h.states
    requires Held(h, sid, token, last) && (h.calls[id].stage.ClosingLease? || h.calls[id].stage.SettingProxy?)
    ensures Held(ResumeActivation(h, id, outcome), sid, token, Latest(h, Resumed(id, outcome), sid, last))
  {
    NotOpening(h, id, sid, token);
    Becomes(h, ResumeActivation(h, id, outcome), id, sid, token, last, Latest(h, Resumed(id, outcome), sid, last));
  }

  predicate SameWork(c: Call, d: Call)
    requires c.Activating? && d.Activating?
  {
    d.sid == c.sid && d.token == c.token && d.identity == c.identity
  }

  lemma PlaceShows(h: Host, sid: SessionId, bounds: Bounds)
    requires sid in h.states
    ensures PlaceAndAttach(h, sid, bounds).states[sid] ==
            if Placed(h.window, h.states[sid], bounds).None? then Deactivate(h.states[sid], true, h.now)
            else h.states[sid].(attached := true)
  {
  }

  lemma FinishedCall(h: Host, id: CallId)
    requires id in h.calls && h.calls[id].Activating? && h.calls[id].sid in h.states
    ensures var g := FinishActivation(h, id);
            id in g.calls && g.calls == h.calls[id := g.calls[id]] && g.calls[id].Activating? &&
            SameWork(h.calls[id], g.calls[id]) && g.calls[id].stage.Returning?
  {
  }

  /** The last step of an activation leaves the session as it is, puts its view away and denies, or attaches it. */
  lemma FinishedSession(h: Host, id: CallId)
    requires id in h.calls && h.calls[id].Activating? && h.calls[id].sid in h.states
    ensures var g := FinishActivation(h, id); var sid := h.calls[id].sid; var s := h.states[sid];
            sid in g.states &&
            (g.states[sid] == s || g.states[sid] == DestroyView(s.(mode := DenyAll)) ||
             g.states[sid] == Deactivate(s, true, h.now) || g.states[sid] == s.(attached := true))
  {
    var c := h.calls[id];
    var s := h.states[c.sid];
    if RequestedFor(s, c.identity) && LiveView(s) { PlaceShows(h, c.sid, s.requestedShow.value.bounds); }
  }

  lemma OwnLoaded(h: Host, id: CallId, sid: SessionId, token: Token, last: Option<Identity>)
    requires id in h.calls && h.calls[id].Activating? && Serves(h.calls[id], sid, token) && sid in h.states
    requires Held(h, sid, token, last) && h.calls[id].stage.Loaded?
    ensures Held(FinishActivation(h, id), sid, token, last)
  {
    NotOpening(h, id, sid, token);
    FinishedCall(h, id);
    FinishedSession(h, id);
    Becomes(h, FinishActivation(h, id), id, sid, token, last, last);
  }

  lemma OwnOther(h: Host, id: CallId, outcome: Outcome, sid: SessionId, token: Token, last: Option<Identity>)
    requires id in h.calls && h.calls[id].Activating? && Serves(h.calls[id], sid, token) && sid in h.states
    requires Held(h, sid, token, last) &&
             (h.calls[id].stage.Resolving? || h.calls[id].stage.Releasing? || h.calls[id].stage.Loading?)
    ensures Held(ResumeActivation(h, id, outcome), sid, token, last)
  {
    NotOpening(h, id, sid, token);
    Becomes(h, ResumeActivation(h, id, outcome), id, sid, token, last, last);
  }

  lemma OwnActivation(h: Host, id: CallId, outcome: Outcome, sid: SessionId, token: Token, last: Option<Identity>)
    requires id in h.calls && h.calls[id].Activating? && Serves(h.calls[id], sid, token) && sid in h.states
    requires LeaseInv(h, sid, token, last) && token < h.next
    ensures LeaseInv(ResumeActivation(h, id, outcome), sid, token, Latest(h, Resumed(id, outcome), sid, last))
  {
    if FenceOf(h, sid) != Some(token) {
      ActivationFrame(h, id, outcome);
    } else {
      match h.calls[id].stage {
        case ClosingLease(_) => OwnInstalling(h, id, outcome, sid, token, last);
        case SettingProxy(_) => OwnInstalling(h, id, outcome, sid, token, last);
        case Loaded => OwnLoaded(h, id, sid, token, last);
        case Returning(_) =>
        case _ => OwnOther(h, id, outcome, sid, token, last);
      }
    }
  }

  lemma OwnStep(h: Host, e: Event, sid: SessionId, token: Token, last: Option<Identity>)
    requires Inv(h) && CanHappen(h, e) && token < h.next && LeaseInv(h, sid, token, last) && Own(h, e, sid, token)
    ensures LeaseInv(Step(h, e), sid, token, Latest(h, e, sid, last))
  {
    match e {
      case CommitCalled(lease) => OwnDrive(h, lease, h.calls[lease].candidate, sid, token, last);
      case RollbackCalled(lease) => OwnRollback(h, lease, sid, token, last);
      case Resumed(call, outcome) =>
        match h.calls[call] {
          case Beginning(_, _, _, _, _, _) => OwnBegin(h, call, outcome, sid, token, last);
          case Leased(_, _, _, _, _) => OwnShow(h, call, sid, token, last);
          case Activating(_, _, _, _, _) => OwnActivation(h, call, outcome, sid, token, last);
        }
    }
  }

  /** Every step, the lease's own or not, keeps what holds while its fence stands. */
  lemma LeaseStep(h: Host, e: Event, sid: SessionId, token: Token, last: Option<Identity>)
    requires Inv(h) && CanHappen(h, e) && token < h.next && LeaseInv(h, sid, token, last)
    ensures LeaseInv(Step(h, e), sid, token, Latest(h, e, sid, last))
  {
    if Own(h, e, sid, token) {
      OwnStep(h, e, sid, token, last);
    } else if InstallOf(h, e, sid).Some? {
      InstalledOver(h, e.call, e.outcome, sid, token, last);
    } else {
      OtherStepAside(h, e, sid, token);
      AsideKeeps(h, Step(h, e), sid, token, last);
    }
  }

  // ----- How a lease starts -----

  /** The step gives the session's fence a token handed out in it. */
  predicate Takes(h: Host, g: Host, sid: SessionId, token: Token) {
    FenceOf(g, sid) == Some(token) && h.next <= token
  }

  lemma BeginHolds(h: Host, at: SessionId, candidate: Identity, replaced: Option<Identity>, byShow: bool)
    requires Inv(h) && at in h.states
    ensures LeaseInv(StartBegin(h, at, candidate, replaced, byShow), at, h.next, None)
  {
    var g := StartBegin(h, at, candidate, replaced, byShow);
    forall id | id in h.calls ensures !Serves(h.calls[id], at, h.next) { assert TokenOk(id, h.calls[id]); }
    assert h.next + 1 in g.calls && Serves(g.calls[h.next + 1], at, h.next);
    assert Opening(g, at, h.next);
  }

  lemma StartBeginTakes(h: Host, at: SessionId, candidate: Identity, replaced: Option<Identity>, byShow: bool,
                        sid: SessionId, token: Token)
    requires Inv(h) && at in h.states && FenceOf(h, sid) != Some(token)
    ensures LeaseInv(StartBegin(h, at, candidate, replaced, byShow), sid, token, None)
  {
    if at == sid { BeginHolds(h, at, candidate, replaced, byShow); }
  }

  lemma PresentTakes(h: Host, at: SessionId, input: Show, sid: SessionId, token: Token)
    requires Inv(h) && at in h.states && FenceOf(h, sid) != Some(token)
    ensures LeaseInv(Present(h, at, input), sid, token, None)
  {
    var s := h.states[at];
    var replaced := if s.active.Some? then Some(s.active.value.identity) else None;
    StartBeginTakes(h, at, input.identity, replaced, true, sid, token);
    PlaceAside(h, at, input.bounds, sid, token);
  }

  lemma RequestFences(h: Host, at: SessionId, input: Show, sid: SessionId)
    requires at in h.states
    ensures FenceOf(Request(h, at, input), sid) == FenceOf(h, sid) && Request(h, at, input).calls == h.calls
  {
  }

  lemma WithSessionFences(h: Host, designId: DesignId, sid: SessionId)
    requires Inv(h)
    ensures FenceOf(WithSession(h, designId), sid) == FenceOf(h, sid) && WithSession(h, designId).calls == h.calls
  {
  }

  lemma ShowTakes(h: Host, input: Show, sid: SessionId, token: Token)
    requires Inv(h) && FenceOf(h, sid) != Some(token)
    ensures LeaseInv(ShowDesign(h, input), sid, token, None)
  {
    var ready := WithSession(h, input.designId);
    WithSessionKeeps(h, input.designId);
    WithSessionFences(h, input.designId, sid);
    var g := ShowDesign(h, input);
    if g != h && g != ready {
      var at := RequireSession(h, input.designId).value;
      RequestKeeps(ready, input);
      RequestFences(ready, at, input, sid);
      PresentTakes(Request(ready, at, input), at, input, sid, token);
    }
  }

  lemma BeginCutoverTakes(h: Host, designId: DesignId, candidate: Identity, replaced: Option<Identity>,
                          sid: SessionId, token: Token)
    requires Inv(h) && FenceOf(h, sid) != Some(token)
    ensures LeaseInv(BeginCutover(h, designId, candidate, replaced), sid, token, None)
  {
    WithSessionKeeps(h, designId);
    WithSessionFences(h, designId, sid);
    if BeginCutover(h, designId, candidate, replaced) != h {
      StartBeginTakes(WithSession(h, designId), RequireSession(h, designId).value, candidate, replaced, false, sid,
                      token);
    }
  }

  lemma RefreshTakes(h: Host, designId: DesignId, generationId: string, requestId: int, sid: SessionId, token: Token)
    requires Inv(h) && FenceOf(h, sid) != Some(token)
    ensures LeaseInv(Refresh(h, designId, generationId, requestId), sid, token, None)
  {
    if designId in h.sessions && Accepts(h.states[h.sessions[designId]], h.rendererEpoch, requestId) {
      var at := h.sessions[designId];
      var s := h.states[at];
      AcceptKeeps(h, at, requestId);
      if s.requestedShow.Some? {
        ShowTakes(h.(states := h.states[at := s.(requestId := requestId)]),
                  s.requestedShow.value.(requestId := requestId), sid, token);
      }
    }
  }

  lemma ResumeShowTakes(h: Host, id: CallId, sid: SessionId, token: Token)
    requires Inv(h) && FenceOf(h, sid) != Some(token) && id in h.calls && h.calls[id].ShowAfterCommit?
    ensures LeaseInv(ResumeShow(h, id), sid, token, None)
  {
    EndCallKeeps(h, id);
    var s := h.states[h.calls[id].sid];
    if s.requestedShow.Some? { ShowTakes(EndCall(h, id), s.requestedShow.value, sid, token); }
  }

  predicate MayBegin(h: Host, e: Event) {
    || e.BeginCalled? || e.ShowCalled? || e.RefreshCalled?
    || (e.Resumed? && e.call in h.calls && h.calls[e.call].ShowAfterCommit?)
  }

  lemma ActivateFences(h: Host, id: CallId, route: Route, outcome: Outcome, sid: SessionId)
    requires id in h.calls && h.calls[id].Activating? && h.calls[id].sid in h.states
    ensures FenceOf(Activate(h, id, route, outcome), sid) == FenceOf(h, sid)
  {
  }

  lemma FrameFences(h: Host, g: Host, sid: SessionId)
    requires Frame(h, g) && g.next == h.next
    ensures FenceOf(g, sid) in {None, FenceOf(h, sid)}
  {
  }

  lemma StageNextStays(h: Host, id: CallId, outcome: Outcome)
    requires id in h.calls && h.calls[id].Activating? && h.calls[id].sid in h.states
    requires !h.calls[id].stage.ClosingLease? && !h.calls[id].stage.SettingProxy?
    ensures ResumeActivation(h, id, outcome).next == h.next
  {
  }

  lemma InstallFences(h: Host, id: CallId, outcome: Outcome, sid: SessionId)
    requires id in h.calls && h.calls[id].Activating? && h.calls[id].sid in h.states
    ensures FenceOf(ResumeActivation(h, id, outcome), sid) in {None, FenceOf(h, sid)}
  {
    var stage := h.calls[id].stage;
    if stage.ClosingLease? || stage.SettingProxy? {
      ActivateFences(h, id, stage.route, outcome, sid);
    } else {
      ActivationFrame(h, id, outcome);
      StageNextStays(h, id, outcome);
      FrameFences(h, ResumeActivation(h, id, outcome), sid);
    }
  }

  lemma CalledFences(h: Host, e: Event, sid: SessionId)
    requires CanHappen(h, e) && (e.CommitCalled? || e.RollbackCalled? || e.CloseCalled? || e.LinkRequested?)
    ensures FenceOf(Step(h, e), sid) in {None, FenceOf(h, sid)}
  {
  }

  lemma NextStays(h: Host, e: Event)
    requires CanHappen(h, e) && !MayBegin(h, e) && !(e.Resumed? && h.calls[e.call].Activating?)
    requires !e.CommitCalled? && !e.RollbackCalled? && !e.CloseCalled? && !e.LinkRequested?
    ensures Step(h, e).next == h.next
  {
  }

  /** No other event hands out a fence. */
  lemma OthersTakeNone(h: Host, e: Event, sid: SessionId)
    requires Inv(h) && CanHappen(h, e) && !MayBegin(h, e)
    ensures FenceOf(Step(h, e), sid) in {None, FenceOf(h, sid)}
  {
    if e.CommitCalled? || e.RollbackCalled? || e.CloseCalled? || e.LinkRequested? {
      CalledFences(h, e, sid);
    } else if e.Resumed? && h.calls[e.call].Activating? {
      InstallFences(h, e.call, e.outcome, sid);
    } else {
      StepFrame(h, e);
      NextStays(h, e);
      FrameFences(h, Step(h, e), sid);
    }
  }

  lemma BeginningHolds(h: Host, e: Event, sid: SessionId, token: Token)
    requires Inv(h) && CanHappen(h, e) && FenceOf(h, sid) != Some(token) && MayBegin(h, e)
    ensures LeaseInv(Step(h, e), sid, token, None)
  {
    match e {
      case BeginCalled(designId, candidate, replaced) =>
        BeginCutoverTakes(h, designId, candidate, replaced, sid, token);
      case ShowCalled(input) => ShowTakes(h, input, sid, token);
      case RefreshCalled(designId, generationId, requestId) =>
        RefreshTakes(h, designId, generationId, requestId, sid, token);
      case Resumed(call, _) => ResumeShowTakes(h, call, sid, token);
    }
  }

  lemma TakesHolds(h: Host, e: Event, sid: SessionId, token: Token)
    requires Inv(h) && CanHappen(h, e) && FenceOf(h, sid) != Some(token) && Takes(h, Step(h, e), sid, token)
    ensures LeaseInv(Step(h, e), sid, token, None)
  {
    if MayBegin(h, e) { BeginningHolds(h, e, sid, token); } else { OthersTakeNone(h, e, sid); }
  }

  // ----- How a lease ends -----

  predicate ShowsRequested(s: Session) {
    s.requestedShow.Some? && s.active.Some? && s.active.value.identity == s.requestedShow.value.identity
  }

  /** What was asked for is shown with its routes allowed, or nothing is and the network is denied. */
  predicate WellShown(s: Session) {
    (s.attached && s.mode == AllowRoutes && ShowsRequested(s)) || (s.view.None? && s.mode == DenyAll)
  }

  predicate WellShownIn(h: Host, sid: SessionId) {
    sid in h.states && WellShown(h.states[sid])
  }

  /** In this step the lease's activation comes to return normally. */
  predicate Returns(h: Host, g: Host, id: CallId, sid: SessionId, token: Token) {
    && id in g.calls && Serves(g.calls[id], sid, token) && g.calls[id].Activating?
    && g.calls[id].stage == Returning(true)
    && (id in h.calls ==> h.calls[id] != g.calls[id])
  }

  predicate Finishes(h: Host, e: Event) {
    e.Resumed? && e.call in h.calls && h.calls[e.call].Activating? && h.calls[e.call].stage.Loaded?
  }

  /** Nothing can be attached for the identity: it is not asked for, has no live view, or its bounds show nothing. */
  predicate Unshowable(h: Host, sid: SessionId, identity: Identity)
    requires sid in h.states
  {
    var s := h.states[sid];
    !RequestedFor(s, identity) || !LiveView(s) || Placed(h.window, s, s.requestedShow.value.bounds).None?
  }

  /** The last step of an activation shows what it should exactly where the network is open to its own route. */
  lemma FinishShowsIff(h: Host, id: CallId)
    requires id in h.calls && h.calls[id].Activating? && h.calls[id].stage.Loaded? && h.calls[id].sid in h.states
    requires FenceOf(h, h.calls[id].sid) == Some(h.calls[id].token)
    ensures var c := h.calls[id]; var s := h.states[c.sid];
            WellShownIn(FinishActivation(h, id), c.sid) <==>
            Unshowable(h, c.sid, c.identity) ||
            (s.mode == AllowRoutes && s.active.Some? && s.active.value.identity == c.identity)
  {
    var c := h.calls[id];
    var s := h.states[c.sid];
    if RequestedFor(s, c.identity) && LiveView(s) { PlaceShows(h, c.sid, s.requestedShow.value.bounds); }
  }

  /**
   * What a lease's normal return must meet to leave its session well shown; `last` as in
   * `Held`, and `denied` says that the network was denied after that.
   */
  predicate EndsWell(h: Host, e: Event, sid: SessionId, last: Option<Identity>, denied: bool)
    requires sid in h.states
  {
    var s := h.states[sid];
    if Finishes(h, e) then Unshowable(h, sid, h.calls[e.call].identity) || last == Some(h.calls[e.call].identity)
    else if s.attached then s.requestedShow.Some? && last == Some(s.requestedShow.value.identity)
    else denied
  }

  predicate DeniedIn(h: Host, sid: SessionId) {
    sid in h.states && h.states[sid].mode == DenyAll
  }

  lemma OpenForView(h: Host, id: CallId, sid: SessionId, token: Token, last: Option<Identity>)
    requires Inv(h) && sid in h.states && Held(h, sid, token, last)
    requires id in h.calls && Serves(h.calls[id], sid, token) && !h.calls[id].Beginning?
    ensures var s := h.states[sid];
            && (s.view.Some? ==>
                  s.mode == AllowRoutes && last.Some? && s.active.Some? && s.active.value.identity == last.value)
            && (s.attached ==> s.view.Some? && s.requestedShow.Some?)
  {
    NotOpening(h, id, sid, token);
    assert SessionOk(h.states[sid]);
  }

  lemma FinishingIff(h: Host, e: Event, id: CallId, sid: SessionId, token: Token, last: Option<Identity>)
    requires Inv(h) && CanHappen(h, e) && LeaseInv(h, sid, token, last) && Own(h, e, sid, token) && sid in h.states
    requires Finishes(h, e) && Returns(h, Step(h, e), id, sid, token)
    ensures id == e.call
    ensures WellShownIn(Step(h, e), sid) <==> EndsWell(h, e, sid, last, DeniedIn(h, sid))
  {
    assert FenceOf(h, sid) == Some(token);
    OpenForView(h, e.call, sid, token, last);
    assert DriverOk(h.calls[e.call], last);
    FinishShowsIff(h, e.call);
  }

  lemma ActivationStopsShort(h: Host, call: CallId, outcome: Outcome, id: CallId, sid: SessionId, token: Token)
    requires call in h.calls && h.calls[call].Activating? && Serves(h.calls[call], sid, token) && sid in h.states
    requires !h.calls[call].stage.Loaded? && Returns(h, ResumeActivation(h, call, outcome), id, sid, token)
    ensures id == call && h.calls[id].stage.Releasing? && FenceOf(h, sid) == Some(token)
    ensures ResumeActivation(h, call, outcome).states == h.states
  {
  }

  lemma StoppingShort(h: Host, e: Event, id: CallId, sid: SessionId, token: Token)
    requires CanHappen(h, e) && Own(h, e, sid, token) && sid in h.states
    requires !Finishes(h, e) && Returns(h, Step(h, e), id, sid, token)
    ensures FenceOf(h, sid) == Some(token) && sid in Step(h, e).states && Step(h, e).states[sid] == h.states[sid]
    ensures e.Resumed? ==>
              id == e.call && !h.calls[id].Beginning? && (h.calls[id].Activating? ==> h.calls[id].stage.Releasing?)
    ensures !e.Resumed? ==> id == h.next
  {
    if e.Resumed? && h.calls[e.call].Activating? { ActivationStopsShort(h, e.call, e.outcome, id, sid, token); }
  }

  lemma StoppingShortIff(h: Host, e: Event, id: CallId, sid: SessionId, token: Token, last: Option<Identity>)
    requires Inv(h) && CanHappen(h, e) && LeaseInv(h, sid, token, last) && Own(h, e, sid, token) && sid in h.states
    requires !Finishes(h, e) && Returns(h, Step(h, e), id, sid, token)
    ensures WellShownIn(Step(h, e), sid) <==> EndsWell(h, e, sid, last, DeniedIn(h, sid))
  {
    StoppingShort(h, e, id, sid, token);
    OpenForView(h, if e.Resumed? then e.call else e.lease, sid, token, last);
  }

  /** Where no route has been made active, a lease that returns normally has stopped short, denied and empty. */
  lemma NoneActiveReturns(h: Host, e: Event, id: CallId, sid: SessionId, token: Token)
    requires Inv(h) && CanHappen(h, e) && LeaseInv(h, sid, token, None) && Own(h, e, sid, token) && sid in h.states
    requires Returns(h, Step(h, e), id, sid, token)
    ensures WellShownIn(Step(h, e), sid)
  {
    NoneActiveStopsShort(h, e, id, sid, token);
    StoppingShort(h, e, id, sid, token);
    OpenForView(h, if e.Resumed? then e.call else e.lease, sid, token, None);
  }

  lemma NoneActiveStopsShort(h: Host, e: Event, id: CallId, sid: SessionId, token: Token)
    requires CanHappen(h, e) && LeaseInv(h, sid, token, None) && Own(h, e, sid, token) && sid in h.states
    requires Returns(h, Step(h, e), id, sid, token)
    ensures !Finishes(h, e)
  {
  }

  /** A normal return leaves the session well shown exactly where it ends well. */
  lemma LeaseReturns(h: Host, e: Event, id: CallId, sid: SessionId, token: Token, last: Option<Identity>)
    requires Inv(h) && CanHappen(h, e) && LeaseInv(h, sid, token, last) && Own(h, e, sid, token) && sid in h.states
    requires Returns(h, Step(h, e), id, sid, token)
    ensures WellShownIn(Step(h, e), sid) <==> EndsWell(h, e, sid, last, DeniedIn(h, sid))
  {
    if Finishes(h, e) {
      FinishingIff(h, e, id, sid, token, last);
    } else {
      StoppingShortIff(h, e, id, sid, token, last);
    }
  }

  // ----- Over runs -----

  /** The identity whose route was made the session's active one last, in the steps after `i` up to `j`. */
  function LastInstall(events: seq<Event>, hosts: seq<Host>, i: nat, j: nat, sid: SessionId): Option<Identity>
    requires j <= |events| && j <= |hosts|
    decreases j
  {
    if j <= i + 1 then None
    else Latest(hosts[j - 1], events[j - 1], sid, LastInstall(events, hosts, i, j - 1, sid))
  }

  ghost predicate HoldsAt(events: seq<Event>, hosts: seq<Host>, i: nat, j: nat, sid: SessionId, token: Token)
    requires j <= |events| && j < |hosts|
  {
    LeaseInv(hosts[j], sid, token, LastInstall(events, hosts, i, j, sid)) && token < hosts[j].next
  }

  lemma TakenHolds(events: seq<Event>, hosts: seq<Host>, i: nat, sid: SessionId, token: Token)
    requires Run(events, hosts) && i < |events| && Takes(hosts[i], hosts[i + 1], sid, token)
    ensures HoldsAt(events, hosts, i, i + 1, sid, token)
  {
    RunKeeps(events, hosts, i);
    if sid in hosts[i].states { FencesAreOld(events, hosts, i, sid); }
    TakesHolds(hosts[i], events[i], sid, token);
    FencesAreOld(events, hosts, i + 1, sid);
  }

  lemma HoldsOn(events: seq<Event>, hosts: seq<Host>, i: nat, k: nat, sid: SessionId, token: Token)
    requires Run(events, hosts) && i < k < |events| && HoldsAt(events, hosts, i, k, sid, token)
    ensures HoldsAt(events, hosts, i, k + 1, sid, token)
  {
    RunKeeps(events, hosts, k);
    LeaseStep(hosts[k], events[k], sid, token, LastInstall(events, hosts, i, k, sid));
    StepFrame(hosts[k], events[k]);
  }

  /** Each step between the two states carries it on. */
  ghost predicate HoldsThrough(events: seq<Event>, hosts: seq<Host>, i: nat, j: nat, sid: SessionId, token: Token)
    requires j <= |events| && j < |hosts|
  {
    forall k :: i < k < j && HoldsAt(events, hosts, i, k, sid, token) ==> HoldsAt(events, hosts, i, k + 1, sid, token)
  }

  lemma {:induction false} HeldThrough(events: seq<Event>, hosts: seq<Host>, i: nat, k: nat, j: nat, sid: SessionId,
                                       token: Token)
    requires i < k <= j <= |events| && j < |hosts| && HoldsAt(events, hosts, i, i + 1, sid, token)
    requires HoldsThrough(events, hosts, i, j, sid, token)
    ensures HoldsAt(events, hosts, i, k, sid, token)
    decreases k
  {
    if k > i + 1 {
      HeldThrough(events, hosts, i, k - 1, j, sid, token);
      assert HoldsAt(events, hosts, i, k - 1, sid, token) ==> HoldsAt(events, hosts, i, (k - 1) + 1, sid, token);
    }
  }

  lemma RunHoldsThrough(events: seq<Event>, hosts: seq<Host>, i: nat, j: nat, sid: SessionId, token: Token)
    requires Run(events, hosts) && i < j <= |events|
    ensures HoldsThrough(events, hosts, i, j, sid, token)
  {
    forall k | i < k < j && HoldsAt(events, hosts, i, k, sid, token)
      ensures HoldsAt(events, hosts, i, k + 1, sid, token)
    {
      HoldsOn(events, hosts, i, k, sid, token);
    }
  }

  /** From the step that took the fence on, through any steps of any call. */
  lemma RunHolds(events: seq<Event>, hosts: seq<Host>, i: nat, j: nat, sid: SessionId, token: Token)
    requires Run(events, hosts) && i < j <= |events| && Takes(hosts[i], hosts[i + 1], sid, token)
    ensures HoldsAt(events, hosts, i, j, sid, token)
  {
    TakenHolds(events, hosts, i, sid, token);
    RunHoldsThrough(events, hosts, i, j, sid, token);
    HeldThrough(events, hosts, i, j, j, sid, token);
  }

  // ----- When the network has been denied -----

  /** Whether the network was denied after the last step that made a route active, or none did after `i`. */
  function DeniedSince(events: seq<Event>, hosts: seq<Host>, i: nat, j: nat, sid: SessionId): bool
    requires j <= |events| && j < |hosts|
    decreases j
  {
    if j <= i + 1 then true
    else InstallOf(hosts[j - 1], events[j - 1], sid).None? &&
         (DeniedSince(events, hosts, i, j - 1, sid) || DeniedIn(hosts[j], sid))
  }

  lemma OwnActivationDenies(h: Host, id: CallId, outcome: Outcome, sid: SessionId, token: Token)
    requires id in h.calls && h.calls[id].Activating? && Serves(h.calls[id], sid, token) && sid in h.states
    requires InstallOf(h, Resumed(id, outcome), sid).None? &&
             FenceOf(ResumeActivation(h, id, outcome), sid) == Some(token)
    ensures var g := ResumeActivation(h, id, outcome);
            FenceOf(h, sid) == Some(token) &&
            (g.states[sid].mode == h.states[sid].mode || g.states[sid].mode == DenyAll)
  {
  }

  lemma OwnDenies(h: Host, e: Event, sid: SessionId, token: Token)
    requires CanHappen(h, e) && Own(h, e, sid, token) && sid in h.states
    requires InstallOf(h, e, sid).None? && FenceOf(Step(h, e), sid) == Some(token)
    ensures FenceOf(h, sid) == Some(token) && sid in Step(h, e).states
    ensures Step(h, e).states[sid].mode == h.states[sid].mode || Step(h, e).states[sid].mode == DenyAll
  {
    if e.Resumed? && h.calls[e.call].Activating? { OwnActivationDenies(h, e.call, e.outcome, sid, token); }
  }

  /** Only making a route active opens the network while the fence stands. */
  lemma OnlyInstallsOpen(h: Host, e: Event, sid: SessionId, token: Token)
    requires Inv(h) && CanHappen(h, e) && token < h.next && FenceOf(Step(h, e), sid) == Some(token)
    requires InstallOf(h, e, sid).None? && sid in h.states
    ensures FenceOf(h, sid) == Some(token) && sid in Step(h, e).states
    ensures Step(h, e).states[sid].mode == h.states[sid].mode || Step(h, e).states[sid].mode == DenyAll
  {
    if Own(h, e, sid, token) { OwnDenies(h, e, sid, token); } else { OtherStepAside(h, e, sid, token); }
  }

  lemma InstallsOpen(h: Host, e: Event, sid: SessionId)
    requires CanHappen(h, e) && InstallOf(h, e, sid).Some?
    ensures !DeniedIn(Step(h, e), sid) && FenceOf(Step(h, e), sid) == FenceOf(h, sid)
  {
  }

  ghost predicate DeniedAt(events: seq<Event>, hosts: seq<Host>, i: nat, j: nat, sid: SessionId, token: Token)
    requires j <= |events| && j < |hosts|
  {
    FenceOf(hosts[j], sid) == Some(token) ==> (DeniedIn(hosts[j], sid) <==> DeniedSince(events, hosts, i, j, sid))
  }

  lemma DeniedOn(events: seq<Event>, hosts: seq<Host>, i: nat, k: nat, sid: SessionId, token: Token)
    requires Run(events, hosts) && i < k < |events| && HoldsAt(events, hosts, i, k, sid, token)
    requires sid in hosts[k].states && DeniedAt(events, hosts, i, k, sid, token)
    ensures DeniedAt(events, hosts, i, k + 1, sid, token)
  {
    RunKeeps(events, hosts, k);
    if FenceOf(hosts[k + 1], sid) == Some(token) {
      if InstallOf(hosts[k], events[k], sid).Some? {
        InstallsOpen(hosts[k], events[k], sid);
      } else {
        OnlyInstallsOpen(hosts[k], events[k], sid, token);
      }
    }
  }

  ghost predicate DeniedThrough(events: seq<Event>, hosts: seq<Host>, i: nat, j: nat, sid: SessionId, token: Token)
    requires j <= |events| && j < |hosts|
  {
    forall k :: i < k < j && DeniedAt(events, hosts, i, k, sid, token) ==> DeniedAt(events, hosts, i, k + 1, sid, token)
  }

  lemma {:induction false} DeniedKept(events: seq<Event>, hosts: seq<Host>, i: nat, k: nat, j: nat, sid: SessionId,
                                      token: Token)
    requires i < k <= j <= |events| && j < |hosts| && DeniedAt(events, hosts, i, i + 1, sid, token)
    requires DeniedThrough(events, hosts, i, j, sid, token)
    ensures DeniedAt(events, hosts, i, k, sid, token)
    decreases k
  {
    if k > i + 1 {
      DeniedKept(events, hosts, i, k - 1, j, sid, token);
      assert DeniedAt(events, hosts, i, k - 1, sid, token) ==> DeniedAt(events, hosts, i, (k - 1) + 1, sid, token);
    }
  }

  lemma RunDenied(events: seq<Event>, hosts: seq<Host>, i: nat, j: nat, sid: SessionId, token: Token)
    requires Run(events, hosts) && i < j <= |events| && Takes(hosts[i], hosts[i + 1], sid, token)
    ensures DeniedAt(events, hosts, i, j, sid, token)
  {
    RunHolds(events, hosts, i, i + 1, sid, token);
    forall k | i < k < j && DeniedAt(events, hosts, i, k, sid, token)
      ensures DeniedAt(events, hosts, i, k + 1, sid, token)
    {
      RunHolds(events, hosts, i, k, sid, token);
      RunFrame(events, hosts, i + 1, k);
      DeniedOn(events, hosts, i, k, sid, token);
    }
    DeniedKept(events, hosts, i, j, j, sid, token);
  }

  /**
   * A lease's activation that returns normally leaves its session well shown if and only
   * if: at its last step nothing can be attached for its identity, or the route made
   * active last since the lease began is its own; stopping short of that, the network has
   * been denied since a route was made active last, or that route is the one requested and
   * is attached. Any other steps may come in between: shows, hides, resets, closes, other cutovers, another
   * window.
   */
  lemma LeaseReturnsIff(events: seq<Event>, hosts: seq<Host>, i: nat, j: nat, id: CallId, sid: SessionId, token: Token)
    requires Run(events, hosts) && i < j < |events| && Takes(hosts[i], hosts[i + 1], sid, token)
    requires Own(hosts[j], events[j], sid, token) && Returns(hosts[j], hosts[j + 1], id, sid, token)
    ensures sid in hosts[j].states
    ensures WellShownIn(hosts[j + 1], sid) <==>
              EndsWell(hosts[j], events[j], sid, LastInstall(events, hosts, i, j, sid),
                       DeniedSince(events, hosts, i, j, sid))
    ensures LastInstall(events, hosts, i, j, sid).None? ==> WellShownIn(hosts[j + 1], sid)
  {
    RunHolds(events, hosts, i, j, sid, token);
    RunDenied(events, hosts, i, j, sid, token);
    RunKeeps(events, hosts, j);
    LeaseReturns(hosts[j], events[j], id, sid, token, LastInstall(events, hosts, i, j, sid));
    if !Finishes(hosts[j], events[j]) { StoppingShort(hosts[j], events[j], id, sid, token); }
    if LastInstall(events, hosts, i, j, sid).None? { NoneActiveReturns(hosts[j], events[j], id, sid, token); }
  }

  // ----- When nothing else is made active -----

  predicate PastInstall(c: Call) {
    c.Activating? && (c.stage.Loading? || c.stage.Loaded? || c.stage.Returning?)
  }

  /** An activation goes forward, or becomes a show's that has settled. */
  predicate Goes(c: Call, d: Call) {
    && (c.Activating? ==>
          d.ShowAfterCommit? || (d.Activating? && SameWork(c, d) && (PastInstall(c) ==> PastInstall(d))))
    && (c.ShowAfterCommit? ==> d.ShowAfterCommit?)
  }

  ghost predicate AllGo(h: Host, g: Host) {
    h.next <= g.next && forall id :: id in g.calls && id < h.next ==> id in h.calls && Goes(h.calls[id], g.calls[id])
  }

  lemma SameGo(h: Host, g: Host)
    requires g.calls == h.calls && h.next <= g.next
    ensures AllGo(h, g)
  {
  }

  lemma OneGoes(h: Host, g: Host, id: CallId)
    requires h.next <= g.next && id in h.calls
    requires g.calls == h.calls - {id} ||
             (id in g.calls && g.calls == h.calls[id := g.calls[id]] && Goes(h.calls[id], g.calls[id]))
    ensures AllGo(h, g)
  {
  }

  lemma StartBeginGoes(h: Host, at: SessionId, candidate: Identity, replaced: Option<Identity>, byShow: bool)
    requires at in h.states
    ensures AllGo(h, StartBegin(h, at, candidate, replaced, byShow))
  {
  }

  lemma PresentGoes(h: Host, at: SessionId, input: Show)
    requires at in h.states
    ensures AllGo(h, Present(h, at, input))
  {
    var s := h.states[at];
    var replaced := if s.active.Some? then Some(s.active.value.identity) else None;
    StartBeginGoes(h, at, input.identity, replaced, true);
    SameGo(h, h);
    SameGo(h, PlaceAndAttach(h, at, input.bounds));
  }

  lemma ShowGoes(h: Host, input: Show)
    ensures AllGo(h, ShowDesign(h, input))
  {
    var ready := WithSession(h, input.designId);
    SameGo(h, h);
    SameGo(h, ready);
    var g := ShowDesign(h, input);
    if g != h && g != ready {
      var at := RequireSession(h, input.designId).value;
      SameGo(ready, Request(ready, at, input));
      PresentGoes(Request(ready, at, input), at, input);
    }
  }

  lemma RefreshGoes(h: Host, designId: DesignId, generationId: string, requestId: int)
    ensures AllGo(h, Refresh(h, designId, generationId, requestId))
  {
    SameGo(h, h);
    if designId in h.sessions && h.sessions[designId] in h.states &&
       Accepts(h.states[h.sessions[designId]], h.rendererEpoch, requestId) {
      var at := h.sessions[designId];
      var s := h.states[at];
      var accepted := h.(states := h.states[at := s.(requestId := requestId)]);
      SameGo(h, accepted);
      if s.requestedShow.Some? && !LiveView(s) { ShowGoes(accepted, s.requestedShow.value.(requestId := requestId)); }
    }
  }

  lemma FinishGoes(h: Host, id: CallId)
    requires id in h.calls && h.calls[id].Activating? && h.calls[id].sid in h.states
    ensures AllGo(h, FinishActivation(h, id))
  {
    OneGoes(h, FinishActivation(h, id), id);
  }

  lemma SettleGoes(h: Host, id: CallId, normally: bool)
    requires id in h.calls && h.calls[id].Activating? && h.calls[id].sid in h.states
    ensures AllGo(h, SettleActivation(h, id, normally))
  {
    OneGoes(h, SettleActivation(h, id, normally), id);
  }

  lemma StageGoes(h: Host, id: CallId, outcome: Outcome)
    requires id in h.calls && h.calls[id].Activating? && h.calls[id].sid in h.states
    requires !h.calls[id].stage.Loaded? && !h.calls[id].stage.Returning?
    ensures AllGo(h, ResumeActivation(h, id, outcome))
  {
    OneGoes(h, ResumeActivation(h, id, outcome), id);
  }

  lemma ActivationGoes(h: Host, id: CallId, outcome: Outcome)
    requires id in h.calls && h.calls[id].Activating? && h.calls[id].sid in h.states
    ensures AllGo(h, ResumeActivation(h, id, outcome))
  {
    match h.calls[id].stage {
      case Loaded => FinishGoes(h, id);
      case Returning(normally) => SettleGoes(h, id, normally);
      case _ => StageGoes(h, id, outcome);
    }
  }

  lemma BeginGoes(h: Host, id: CallId, outcome: Outcome)
    requires id in h.calls && h.calls[id].Beginning? && h.calls[id].sid in h.states
    ensures AllGo(h, ResumeBegin(h, id, outcome))
  {
    OneGoes(h, ResumeBegin(h, id, outcome), id);
  }

  lemma OtherResumedGoes(h: Host, id: CallId, outcome: Outcome)
    requires CanHappen(h, Resumed(id, outcome)) &&
             (h.calls[id].Leased? || h.calls[id].Reloading? || h.calls[id].Closing?)
    ensures AllGo(h, Step(h, Resumed(id, outcome)))
  {
    OneGoes(h, Step(h, Resumed(id, outcome)), id);
  }

  lemma ResumeShowGoes(h: Host, id: CallId)
    requires id in h.calls && h.calls[id].ShowAfterCommit? && h.calls[id].sid in h.states
    ensures AllGo(h, ResumeShow(h, id))
  {
    OneGoes(h, EndCall(h, id), id);
    var s := h.states[h.calls[id].sid];
    if s.requestedShow.Some? { ShowGoes(EndCall(h, id), s.requestedShow.value); }
  }

  lemma BeginCutoverGoes(h: Host, designId: DesignId, candidate: Identity, replaced: Option<Identity>)
    ensures AllGo(h, BeginCutover(h, designId, candidate, replaced))
  {
    var ready := WithSession(h, designId);
    SameGo(h, h);
    SameGo(h, ready);
    if BeginCutover(h, designId, candidate, replaced) != h {
      StartBeginGoes(ready, RequireSession(h, designId).value, candidate, replaced, false);
    }
  }

  lemma CallingEventsGo(h: Host, e: Event)
    requires CanHappen(h, e) && (e.BeginCalled? || e.CommitCalled? || e.RollbackCalled? || e.CloseCalled?)
    ensures AllGo(h, Step(h, e))
  {
    if e.BeginCalled? { BeginCutoverGoes(h, e.designId, e.candidate, e.replaced); }
  }

  lemma QuietEventsGo(h: Host, e: Event)
    requires CanHappen(h, e) && !e.ShowCalled? && !e.RefreshCalled? && !e.Resumed?
    requires !e.BeginCalled? && !e.CommitCalled? && !e.RollbackCalled? && !e.CloseCalled?
    ensures AllGo(h, Step(h, e))
  {
    SameGo(h, Step(h, e));
  }

  lemma StepGoes(h: Host, e: Event)
    requires CanHappen(h, e)
    ensures AllGo(h, Step(h, e))
  {
    match e {
      case ShowCalled(input) => ShowGoes(h, input);
      case RefreshCalled(designId, generationId, requestId) => RefreshGoes(h, designId, generationId, requestId);
      case Resumed(call, outcome) =>
        if h.calls[call].Activating? {
          ActivationGoes(h, call, outcome);
        } else if h.calls[call].ShowAfterCommit? {
          ResumeShowGoes(h, call);
        } else if h.calls[call].Beginning? {
          BeginGoes(h, call, outcome);
        } else {
          OtherResumedGoes(h, call, outcome);
        }
      case _ =>
        if e.BeginCalled? || e.CommitCalled? || e.RollbackCalled? || e.CloseCalled? { CallingEventsGo(h, e); }
        else { QuietEventsGo(h, e); }
    }
  }

  /** No call but this one makes a route the session's active one in the step. */
  predicate OthersInstallNone(h: Host, e: Event, id: CallId, sid: SessionId) {
    InstallOf(h, e, sid).Some? ==> e.call == id
  }

  /** What has been made active is the call's own route, and the call is past that. */
  ghost predicate OnlyIts(h: Host, id: CallId, last: Option<Identity>) {
    last.Some? ==>
      && id < h.next
      && (id in h.calls ==>
            h.calls[id].ShowAfterCommit? || (PastInstall(h.calls[id]) && last == Some(h.calls[id].identity)))
  }

  lemma InstallGoes(h: Host, e: Event, id: CallId, sid: SessionId, token: Token, last: Option<Identity>)
    requires Inv(h) && CanHappen(h, e) && sid in h.states && Held(h, sid, token, last)
    requires InstallOf(h, e, sid).Some? && e.call == id && Serves(h.calls[id], sid, token)
    ensures OnlyIts(Step(h, e), id, InstallOf(h, e, sid))
  {
    assert DriverOk(h.calls[id], last);
  }

  lemma OnlyItsGoes(h: Host, e: Event, id: CallId, sid: SessionId, token: Token, last: Option<Identity>)
    requires Inv(h) && CanHappen(h, e) && sid in h.states && Held(h, sid, token, last) && OnlyIts(h, id, last)
    requires OthersInstallNone(h, e, id, sid) &&
             (id in h.calls && h.calls[id].Activating? ==> Serves(h.calls[id], sid, token))
    ensures OnlyIts(Step(h, e), id, Latest(h, e, sid, last))
  {
    if InstallOf(h, e, sid).Some? { InstallGoes(h, e, id, sid, token, last); } else { StepGoes(h, e); }
  }

  lemma GoTwice(h: Host, g: Host, k: Host)
    requires AllGo(h, g) && AllGo(g, k)
    ensures AllGo(h, k)
  {
  }

  lemma GoOnce(events: seq<Event>, hosts: seq<Host>, k: nat, m: nat)
    requires Run(events, hosts) && m < |events| && k < |hosts| && AllGo(hosts[k], hosts[m])
    ensures AllGo(hosts[k], hosts[m + 1])
  {
    StepGoes(hosts[m], events[m]);
    GoTwice(hosts[k], hosts[m], hosts[m + 1]);
  }

  lemma {:induction false} RunGoes(events: seq<Event>, hosts: seq<Host>, k: nat, j: nat)
    requires Run(events, hosts) && k <= j < |hosts|
    ensures AllGo(hosts[k], hosts[j])
    decreases j
  {
    if k == j {
      SameGo(hosts[k], hosts[j]);
    } else {
      RunGoes(events, hosts, k, j - 1);
      GoOnce(events, hosts, k, j - 1);
    }
  }

  /** The lease began after `i`, still has its fence at `j`, and `id` works for it then or is yet to come. */
  ghost predicate Standing(events: seq<Event>, hosts: seq<Host>, i: nat, j: nat, id: CallId, sid: SessionId,
                           token: Token) {
    && Run(events, hosts) && i < j < |events| && Takes(hosts[i], hosts[i + 1], sid, token)
    && FenceOf(hosts[j], sid) == Some(token)
    && (if id in hosts[j].calls then Serves(hosts[j].calls[id], sid, token) else hosts[j].next <= id)
  }

  /** It had its fence, and `id` worked for it if it was there, in every state in between. */
  lemma Before(events: seq<Event>, hosts: seq<Host>, i: nat, k: nat, j: nat, id: CallId, sid: SessionId, token: Token)
    requires Standing(events, hosts, i, j, id, sid, token) && i < k <= j
    ensures HoldsAt(events, hosts, i, k, sid, token) && FenceOf(hosts[k], sid) == Some(token) && Inv(hosts[k])
    ensures id in hosts[k].calls && hosts[k].calls[id].Activating? ==> Serves(hosts[k].calls[id], sid, token)
  {
    RunHolds(events, hosts, i, k, sid, token);
    RunKeeps(events, hosts, k);
    RunFrame(events, hosts, k, j);
    RunGoes(events, hosts, k, j);
    RunFrame(events, hosts, i + 1, k);
  }

  ghost predicate OnlyItsAt(events: seq<Event>, hosts: seq<Host>, i: nat, k: nat, id: CallId, sid: SessionId)
    requires k <= |events| && k < |hosts|
  {
    OnlyIts(hosts[k], id, LastInstall(events, hosts, i, k, sid))
  }

  lemma OnlyItsOn(events: seq<Event>, hosts: seq<Host>, i: nat, k: nat, j: nat, id: CallId, sid: SessionId,
                  token: Token)
    requires Standing(events, hosts, i, j, id, sid, token) && i < k < j && OnlyItsAt(events, hosts, i, k, id, sid)
    requires OthersInstallNone(hosts[k], events[k], id, sid)
    ensures OnlyItsAt(events, hosts, i, k + 1, id, sid)
  {
    Before(events, hosts, i, k, j, id, sid, token);
    OnlyItsGoes(hosts[k], events[k], id, sid, token, LastInstall(events, hosts, i, k, sid));
  }

  ghost predicate OnlyItsThrough(events: seq<Event>, hosts: seq<Host>, i: nat, j: nat, id: CallId, sid: SessionId)
    requires j <= |events| && j < |hosts|
  {
    forall k :: i < k < j && OnlyItsAt(events, hosts, i, k, id, sid) ==> OnlyItsAt(events, hosts, i, k + 1, id, sid)
  }

  lemma {:induction false} OnlyItsKept(events: seq<Event>, hosts: seq<Host>, i: nat, k: nat, j: nat, id: CallId,
                                       sid: SessionId)
    requires i < k <= j <= |events| && j < |hosts| && OnlyItsThrough(events, hosts, i, j, id, sid)
    ensures OnlyItsAt(events, hosts, i, k, id, sid)
    decreases k
  {
    if k > i + 1 {
      OnlyItsKept(events, hosts, i, k - 1, j, id, sid);
      assert OnlyItsAt(events, hosts, i, k - 1, id, sid) ==> OnlyItsAt(events, hosts, i, (k - 1) + 1, id, sid);
    }
  }

  lemma OnlyItsRun(events: seq<Event>, hosts: seq<Host>, i: nat, j: nat, id: CallId, sid: SessionId, token: Token)
    requires Standing(events, hosts, i, j, id, sid, token)
    requires forall m :: i < m < j ==> OthersInstallNone(hosts[m], events[m], id, sid)
    ensures OnlyItsAt(events, hosts, i, j, id, sid)
  {
    forall k | i < k < j &&
    OnlyItsAt(events, hosts, i, k, id, sid) ensures OnlyItsAt(events, hosts, i, k + 1, id, sid) {
      OnlyItsOn(events, hosts, i, k, j, id, sid, token);
    }
    OnlyItsKept(events, hosts, i, j, j, id, sid);
  }

  /** The call that returns in the step works for the lease, or is new in it. */
  lemma ReturningCall(h: Host, e: Event, id: CallId, sid: SessionId, token: Token)
    requires Inv(h) && CanHappen(h, e) && Own(h, e, sid, token) && sid in h.states &&
             Returns(h, Step(h, e), id, sid, token)
    ensures FenceOf(h, sid) == Some(token)
    ensures if id in h.calls then Serves(h.calls[id], sid, token) && e.Resumed? && e.call == id else h.next <= id
  {
    if !Finishes(h, e) { StoppingShort(h, e, id, sid, token); }
  }

  /** With nothing but its own route made active, a lease's normal return ends well. */
  lemma OnlyItsEndsWell(h: Host, e: Event, id: CallId, sid: SessionId, token: Token, last: Option<Identity>)
    requires Inv(h) && CanHappen(h, e) && Own(h, e, sid, token) && sid in h.states &&
             Returns(h, Step(h, e), id, sid, token)
    requires LeaseInv(h, sid, token, last) && OnlyIts(h, id, last)
    ensures EndsWell(h, e, sid, last, DeniedIn(h, sid))
  {
    ReturningCall(h, e, id, sid, token);
    if Finishes(h, e) {
      assert DriverOk(h.calls[id], last);
    } else {
      StoppingShort(h, e, id, sid, token);
      OpenForView(h, if e.Resumed? then e.call else e.lease, sid, token, last);
    }
  }

  /**
   * A lease during which no call but the returning one makes a route the session's active
   * one: its session is well shown when it returns normally, whatever else happens.
   */
  lemma LeaseReturnsWell(events: seq<Event>, hosts: seq<Host>, i: nat, j: nat, id: CallId, sid: SessionId, token: Token)
    requires Run(events, hosts) && i < j < |events| && Takes(hosts[i], hosts[i + 1], sid, token)
    requires Own(hosts[j], events[j], sid, token) && Returns(hosts[j], hosts[j + 1], id, sid, token)
    requires forall k :: i < k < j ==> OthersInstallNone(hosts[k], events[k], id, sid)
    ensures WellShownIn(hosts[j + 1], sid)
  {
    RunKeeps(events, hosts, j);
    RunHolds(events, hosts, i, j, sid, token);
    ReturnStands(events, hosts, i, j, id, sid, token);
    OnlyItsRun(events, hosts, i, j, id, sid, token);
    OnlyItsReturnsWell(hosts[j], events[j], id, sid, token, LastInstall(events, hosts, i, j, sid));
  }

  lemma OnlyItsReturnsWell(h: Host, e: Event, id: CallId, sid: SessionId, token: Token, last: Option<Identity>)
    requires Inv(h) && CanHappen(h, e) && Own(h, e, sid, token) && sid in h.states &&
             Returns(h, Step(h, e), id, sid, token)
    requires LeaseInv(h, sid, token, last) && OnlyIts(h, id, last)
    ensures WellShownIn(Step(h, e), sid)
  {
    OnlyItsEndsWell(h, e, id, sid, token, last);
    LeaseReturns(h, e, id, sid, token, last);
  }

  /** At its return the lease still has its fence. */
  lemma ReturnStands(events: seq<Event>, hosts: seq<Host>, i: nat, j: nat, id: CallId, sid: SessionId, token: Token)
    requires Run(events, hosts) && i < j < |events| && Takes(hosts[i], hosts[i + 1], sid, token)
    requires Own(hosts[j], events[j], sid, token) && Returns(hosts[j], hosts[j + 1], id, sid, token)
    ensures Standing(events, hosts, i, j, id, sid, token)
  {
    RunKeeps(events, hosts, j);
    ReturningCall(hosts[j], events[j], id, sid, token);
  }
}
