/**
 * The design canvas host as a state machine. Each method of the host is cut at its
 * awaits: what runs between two of them is one step. A call in flight says where it
 * stands, and its surroundings choose which call goes on next and how its await settled.
 */
module DesignCanvas {
  import opened Wrappers
  import opened CanvasBounds

  type DesignId = string
  /** A session object; one stays known after its design is closed, since calls may still hold it. */
  type SessionId = nat
  type Token = nat
  type CallId = nat

  datatype Identity = Identity(taskId: string, generationId: string, routeId: string)

  datatype Show = Show(designId: DesignId, identity: Identity, requestId: int, bounds: Bounds)

  datatype View = View(id: nat, destroyed: bool)

  /** A resolved route: the identity it was asked for, its origins, and whether it came with a network lease. */
  datatype Route = Route(identity: Identity, origins: seq<string>, leased: bool)

  datatype Link = Link(id: nat, expiresAt: int)

  datatype Mode = DenyAll | AllowRoutes

  datatype Session = Session(
    designId: DesignId, mode: Mode, view: Option<View>, attached: bool, active: Option<Route>, lastOrigins: seq<string>,
    requestId: int, rendererEpoch: nat, fenceToken: Option<Token>, requestedShow: Option<Show>, pendingLinks: seq<Link>,
    closing: bool)

  /** `children` are the views the window holds. */
  datatype Window = Window(id: nat, destroyed: bool, zoom: Number, width: real, height: real, children: set<nat>)

  /** The await an activation stands at, or what it is about to return. */
  datatype Stage =
    | Resolving
    | Releasing
    | ClosingLease(route: Route)
    | SettingProxy(route: Route)
    | Loading(viewId: nat, generationId: string)
    | Loaded
    | Returning(normally: bool)

  /** A call in flight; `originsLeft` is None while connections close and then counts the origins to clear. */
  datatype Call =
    | Beginning(sid: SessionId, token: Token, candidate: Identity, replaced: Option<Identity>, byShow: bool,
                originsLeft: Option<nat>)
    | Leased(sid: SessionId, token: Token, candidate: Identity, replaced: Option<Identity>, byShow: bool)
    | Activating(sid: SessionId, token: Token, identity: Identity, byShow: bool, stage: Stage)
    | ShowAfterCommit(sid: SessionId)
    | Reloading(sid: SessionId, viewId: nat, generationId: string)
    | Closing(sid: SessionId, originsLeft: Option<nat>)

  /**
   * `openedLinks` are the links opened so far, in order; `next` numbers the next session, token,
   * view, link or call.
   */
  datatype Host = Host(
    states: map<SessionId, Session>, sessions: map<DesignId, SessionId>, window: Option<Window>, rendererEpoch: nat,
    now: int, calls: map<CallId, Call>, openedLinks: seq<nat>, next: nat)

  /** How an await settled; after `Viewless` it settled, but no view can be created. */
  datatype Outcome = Settled | Rejected | Viewless | Resolved(origins: seq<string>, leased: bool, safe: bool)

  datatype Event =
    // The host's methods.
    | AttachWindow(id: nat, zoom: Number, width: real, height: real)
    | DetachWindow
    | BeginCalled(designId: DesignId, candidate: Identity, replaced: Option<Identity>)
    | CommitCalled(lease: CallId)
    | RollbackCalled(lease: CallId)
    | ShowCalled(input: Show)
    | HideCalled(designId: DesignId, requestId: int)
    | RefreshCalled(designId: DesignId, generationId: string, requestId: int)
    | CloseCalled(designId: DesignId)
    | ApproveCalled(designId: DesignId, linkId: nat)
    | GenerationUnavailable(generationId: string)
    // What happens around the host.
    | RendererReset
    | LinkRequested(sid: SessionId, lifetime: int)
    | ViewDestroyed(sid: SessionId)
    | WindowDestroyed
    | WindowResized(zoom: Number, width: real, height: real)
    | TimePasses(now: int)
    // A call goes on.
    | Resumed(call: CallId, outcome: Outcome)

  const MAX_LINKS := 16
  const MAX_SAFE_INTEGER := 0x1F_FFFF_FFFF_FFFF
  const MAX_IDENTITY_LENGTH := 256

  // ----- One session -----

  predicate ValidName(name: string) {
    name != "" && |name| <= MAX_IDENTITY_LENGTH && '\0' !in name
  }

  predicate ValidIdentity(identity: Identity) {
    ValidName(identity.taskId) && ValidName(identity.generationId) && ValidName(identity.routeId)
  }

  predicate Unexpired(link: Link, now: int) {
    now <= link.expiresAt
  }

  function UnexpiredLinks(links: seq<Link>, now: int): (kept: seq<Link>)
    ensures |kept| <= |links|
  {
    if links == [] then []
    else (if Unexpired(links[0], now) then [links[0]] else []) + UnexpiredLinks(links[1..], now)
  }

  function NewestOf(links: seq<Link>): (kept: seq<Link>)
    ensures |kept| <= MAX_LINKS
  {
    if |links| <= MAX_LINKS then links else links[|links| - MAX_LINKS..]
  }

  /** The unexpired links, the oldest beyond the bound dropped. */
  function Prune(links: seq<Link>, now: int): (kept: seq<Link>)
    ensures |kept| <= MAX_LINKS
  {
    NewestOf(UnexpiredLinks(links, now))
  }

  /** Only the newest unexpired link. */
  function RetainLatest(links: seq<Link>, now: int): seq<Link> {
    var kept := Prune(links, now);
    if kept == [] then [] else [kept[|kept| - 1]]
  }

  function DestroyView(s: Session): Session {
    if s.view.None? then s else s.(attached := false, view := None)
  }

  function Deactivate(s: Session, preserveLinks: bool, now: int): Session {
    DestroyView(s.(requestedShow := None, mode := DenyAll,
                   pendingLinks := if preserveLinks then RetainLatest(s.pendingLinks, now) else []))
  }

  predicate Accepts(s: Session, epoch: nat, requestId: int) {
    0 <= requestId <= MAX_SAFE_INTEGER && s.rendererEpoch == epoch && s.requestId <= requestId
  }

  predicate RequestedFor(s: Session, identity: Identity) {
    s.requestedShow.Some? && s.requestedShow.value.identity == identity
  }

  predicate LiveView(s: Session) {
    s.view.Some? && !s.view.value.destroyed
  }

  predicate HasActiveView(s: Session, identity: Identity) {
    LiveView(s) && s.active.Some? && s.active.value.identity == identity
  }

  /** The views of the session that its window holds, as the session has it. */
  function AttachedView(s: Session): set<nat> {
    if s.attached && s.view.Some? then {s.view.value.id} else {}
  }

  function NewSession(designId: DesignId, epoch: nat): Session {
    Session(designId, DenyAll, None, false, None, [], -1, epoch, None, None, [], false)
  }

  // ----- The window -----

  predicate LiveWindow(w: Option<Window>) {
    w.Some? && !w.value.destroyed
  }

  function WithoutChildren(w: Option<Window>, views: set<nat>): Option<Window> {
    if LiveWindow(w) then Some(w.value.(children := w.value.children - views)) else w
  }

  /** Where the bounds put a view in the window; None when they show nothing. */
  function Placed(w: Option<Window>, s: Session, bounds: Bounds): Option<Rect> {
    if !LiveWindow(w) || s.view.None? then None
    else NormalizeBounds(bounds, w.value.zoom, w.value.width, w.value.height)
  }

  // ----- Steps over the host -----

  /** Replaces one session; the window drops the views it no longer has attached. */
  function Put(h: Host, sid: SessionId, s: Session): Host
    requires sid in h.states
  {
    h.(states := h.states[sid := s], window := WithoutChildren(h.window, AttachedView(h.states[sid]) - AttachedView(s)))
  }

  function ViewsOf(h: Host, targets: set<SessionId>): set<nat> {
    set sid, v | sid in targets && sid in h.states && v in AttachedView(h.states[sid]) :: v
  }

  /** Deactivates every session in `targets`. */
  function DeactivateAll(h: Host, targets: set<SessionId>, preserveLinks: bool): Host {
    h.(states := map sid | sid in h.states ::
                   if sid in targets then Deactivate(h.states[sid], preserveLinks, h.now) else h.states[sid],
       window := WithoutChildren(h.window, ViewsOf(h, targets)))
  }

  /** The sessions the host still maps a design to. */
  function Mapped(h: Host): set<SessionId> {
    set d | d in h.sessions :: h.sessions[d]
  }

  /** `attachView`: the window takes the view in unless it has it. */
  function Attach(h: Host, sid: SessionId): Host
    requires sid in h.states
  {
    var s := h.states[sid];
    if !LiveWindow(h.window) || s.view.None? || s.attached then h
    else
      h.(states := h.states[sid := s.(attached := true)],
         window := Some(h.window.value.(children := h.window.value.children + {s.view.value.id})))
  }

  /** `applyBounds` and, where it places the view, `attachView`. */
  function PlaceAndAttach(h: Host, sid: SessionId, bounds: Bounds): Host
    requires sid in h.states
  {
    var s := h.states[sid];
    if Placed(h.window, s, bounds).None? then Put(h, sid, Deactivate(s, true, h.now)) else Attach(h, sid)
  }

  /** The design's session, made if it has none; None where the design is closing. */
  function RequireSession(h: Host, designId: DesignId): Option<SessionId> {
    if designId !in h.sessions then Some(h.next)
    else if h.sessions[designId] in h.states && !h.states[h.sessions[designId]].closing then Some(h.sessions[designId])
    else None
  }

  function WithSession(h: Host, designId: DesignId): Host {
    if designId in h.sessions then h
    else h.(states := h.states[h.next := NewSession(designId, h.rendererEpoch)],
            sessions := h.sessions[designId := h.next], next := h.next + 1)
  }

  predicate ValidCutover(candidate: Identity, replaced: Option<Identity>) {
    ValidIdentity(candidate) &&
    (replaced.Some? ==> ValidIdentity(replaced.value) && replaced.value.taskId == candidate.taskId)
  }

  /** A new fence: the network is denied and only the newest link waits. */
  function Fence(h: Host, sid: SessionId): Host
    requires sid in h.states
  {
    var s := h.states[sid];
    h.(states := h.states[sid :=
                          s.(fenceToken := Some(h.next), mode := DenyAll,
                             pendingLinks := RetainLatest(s.pendingLinks, h.now))],
       next := h.next + 1)
  }

  function NewCall(h: Host, c: Call): Host {
    h.(calls := h.calls[h.next := c], next := h.next + 1)
  }

  /** `begin` up to its first await. */
  function StartBegin(h: Host, sid: SessionId, candidate: Identity, replaced: Option<Identity>, byShow: bool): Host
    requires sid in h.states
  {
    NewCall(Fence(h, sid), Beginning(sid, h.next, candidate, replaced, byShow, None))
  }

  function BeginCutover(h: Host, designId: DesignId, candidate: Identity, replaced: Option<Identity>): Host {
    if !ValidCutover(candidate, replaced) then h
    else
      var sid := RequireSession(h, designId);
      if sid.None? then h else
      var ready := WithSession(h, designId);
      if sid.value in ready.states then StartBegin(ready, sid.value, candidate, replaced, false) else h
  }

  /** The session is another design's and has anything to deactivate. */
  predicate GivesWay(s: Session, selected: DesignId) {
    s.designId != selected && (s.requestedShow.Some? || s.view.Some? || s.mode == AllowRoutes)
  }

  function OtherSessions(h: Host, selected: DesignId): set<SessionId> {
    set sid | sid in Mapped(h) && sid in h.states && GivesWay(h.states[sid], selected) :: sid
  }

  predicate IsActive(s: Session, generationId: string) {
    s.active.Some? && s.active.value.identity.generationId == generationId
  }

  /** The sessions whose active route is of this generation. */
  function SessionsOf(h: Host, generationId: string): set<SessionId> {
    set sid | sid in Mapped(h) && sid in h.states && IsActive(h.states[sid], generationId) :: sid
  }

  /** A request accepted for the session: other designs give way, and it is the one requested. */
  function Request(h: Host, sid: SessionId, input: Show): Host
    requires sid in h.states
  {
    var others := DeactivateAll(h, OtherSessions(h, input.designId) - {sid}, true);
    others.(states := others.states[sid := h.states[sid].(requestId := input.requestId, requestedShow := Some(input))])
  }

  /** What `show` does once its request is recorded, up to its first await. */
  function Present(h: Host, sid: SessionId, input: Show): Host
    requires sid in h.states
  {
    var s := h.states[sid];
    if s.fenceToken.Some? then h
    else if HasActiveView(s, input.identity) then PlaceAndAttach(h, sid, input.bounds)
    else
      var replaced := if s.active.Some? then Some(s.active.value.identity) else None;
      if ValidCutover(input.identity, replaced) then StartBegin(h, sid, input.identity, replaced, true) else h
  }

  function ShowDesign(h: Host, input: Show): Host {
    if !ValidIdentity(input.identity) then h
    else
      var sid := RequireSession(h, input.designId);
      if sid.None? then h else
      var ready := WithSession(h, input.designId);
      if sid.value !in ready.states || !Accepts(ready.states[sid.value], ready.rendererEpoch, input.requestId) then
        ready
      else Present(Request(ready, sid.value, input), sid.value, input)
  }

  function Hide(h: Host, designId: DesignId, requestId: int): Host {
    if designId !in h.sessions || h.sessions[designId] !in h.states then h
    else
      var sid := h.sessions[designId];
      var s := h.states[sid];
      if !Accepts(s, h.rendererEpoch, requestId) then h
      else Put(h, sid, Deactivate(s.(requestId := requestId), true, h.now))
  }

  function Refresh(h: Host, designId: DesignId, generationId: string, requestId: int): Host {
    if designId !in h.sessions || h.sessions[designId] !in h.states then h
    else
      var sid := h.sessions[designId];
      var s := h.states[sid];
      if !Accepts(s, h.rendererEpoch, requestId) then h
      else
        var accepted := h.(states := h.states[sid := s.(requestId := requestId)]);
        if s.requestedShow.None? || s.requestedShow.value.identity.generationId != generationId ||
           s.fenceToken.Some? then accepted
        else if !LiveView(s) then ShowDesign(accepted, s.requestedShow.value.(requestId := requestId))
        else if s.active.None? then accepted
        else NewCall(accepted, Reloading(sid, s.view.value.id, s.active.value.identity.generationId))
  }

  function Close(h: Host, designId: DesignId): Host {
    if designId !in h.sessions || h.sessions[designId] !in h.states then h
    else
      var sid := h.sessions[designId];
      var s := h.states[sid];
      if s.closing then h
      else
        NewCall(Put(h, sid, Deactivate(s, false, h.now).(closing := true)), Closing(sid, None))
  }

  function FindLink(links: seq<Link>, id: nat): (i: int)
    ensures -1 <= i < |links|
    ensures i >= 0 ==> links[i].id == id
    ensures i < 0 ==> forall j :: 0 <= j < |links| ==> links[j].id != id
  {
    if links == [] then -1
    else if links[0].id == id then 0
    else
      var later := FindLink(links[1..], id);
      if later < 0 then -1 else later + 1
  }

  /** An approval uses its link up, and opens it unless it has expired. */
  function Approve(h: Host, designId: DesignId, linkId: nat): Host {
    if designId !in h.sessions || h.sessions[designId] !in h.states then h
    else
      var sid := h.sessions[designId];
      var s := h.states[sid];
      var i := FindLink(s.pendingLinks, linkId);
      if i < 0 then h
      else
        var used := h.(states := h.states[sid := s.(pendingLinks := s.pendingLinks[..i] + s.pendingLinks[i + 1..])]);
        if Unexpired(s.pendingLinks[i], h.now) then used.(openedLinks := h.openedLinks + [linkId]) else used
  }

  function RequestLink(h: Host, sid: SessionId, lifetime: int): Host
    requires sid in h.states
  {
    var s := h.states[sid];
    var links := s.pendingLinks + [Link(h.next, h.now + lifetime)];
    h.(states := h.states[sid := s.(pendingLinks := Prune(links, h.now))], next := h.next + 1)
  }

  /** `detachWindow`: every mapped session loses its fence and is deactivated; the window goes. */
  function Detach(h: Host): Host {
    h.(states := map sid | sid in h.states ::
         if sid in Mapped(h) then Deactivate(h.states[sid].(fenceToken := None), false, h.now) else h.states[sid],
       window := None)
  }

  /** The renderer's next epoch, which every mapped session joins with no request accepted. */
  function NextEpoch(h: Host): Host {
    h.(rendererEpoch := h.rendererEpoch + 1,
       states := map sid | sid in h.states ::
         if sid in Mapped(h) then h.states[sid].(rendererEpoch := h.rendererEpoch + 1, requestId := -1)
         else h.states[sid])
  }

  function WithoutFence(h: Host, sid: SessionId, token: Token): Host
    requires sid in h.states
  {
    if h.states[sid].fenceToken == Some(token) then h.(states := h.states[sid := h.states[sid].(fenceToken := None)])
    else h
  }

  // ----- Calls going on -----

  function EndCall(h: Host, id: CallId): Host {
    h.(calls := h.calls - {id})
  }

  function SetStage(h: Host, id: CallId, stage: Stage): Host
    requires id in h.calls && h.calls[id].Activating?
  {
    h.(calls := h.calls[id := h.calls[id].(stage := stage)])
  }

  function BeginFails(h: Host, id: CallId): Host
    requires id in h.calls && h.calls[id].Beginning? && h.calls[id].sid in h.states
  {
    EndCall(WithoutFence(h, h.calls[id].sid, h.calls[id].token), id)
  }

  /** All origins are cleared: the lease is handed out, unless a later cutover has taken the fence. */
  function BeginEnds(h: Host, id: CallId): Host
    requires id in h.calls && h.calls[id].Beginning? && h.calls[id].sid in h.states
  {
    var c := h.calls[id];
    if h.states[c.sid].fenceToken != Some(c.token) then BeginFails(h, id)
    else h.(calls := h.calls[id := Leased(c.sid, c.token, c.candidate, c.replaced, c.byShow)])
  }

  function ClearOrigins(h: Host, id: CallId, left: nat): Host
    requires id in h.calls && h.calls[id].Beginning? && h.calls[id].sid in h.states
  {
    if left == 0 then BeginEnds(h, id) else h.(calls := h.calls[id := h.calls[id].(originsLeft := Some(left))])
  }

  function OneLess(n: nat): nat { if n == 0 then 0 else n - 1 }

  /** Its connections closed, or one more origin cleared. */
  function ResumeBegin(h: Host, id: CallId, outcome: Outcome): Host
    requires id in h.calls && h.calls[id].Beginning? && h.calls[id].sid in h.states
  {
    var c := h.calls[id];
    if outcome.Rejected? then BeginFails(h, id)
    else if c.originsLeft.Some? then ClearOrigins(h, id, OneLess(c.originsLeft.value))
    else ClearOrigins(Put(h, c.sid, DestroyView(h.states[c.sid])), id, |h.states[c.sid].lastOrigins|)
  }

  /** Where `activateRequestedRoute` first stands. */
  function FirstStage(s: Session, token: Token, identity: Identity): Stage {
    if s.fenceToken != Some(token) then Returning(false)
    else if !RequestedFor(s, identity) then Returning(true)
    else Resolving
  }

  function Activation(h: Host, lease: Call, identity: Identity): Call
    requires lease.Leased? && lease.sid in h.states
  {
    Activating(lease.sid, lease.token, identity, lease.byShow, FirstStage(h.states[lease.sid], lease.token, identity))
  }

  function Commit(h: Host, leaseId: CallId): Host
    requires leaseId in h.calls && h.calls[leaseId].Leased? && h.calls[leaseId].sid in h.states
  {
    NewCall(h, Activation(h, h.calls[leaseId], h.calls[leaseId].candidate))
  }

  /** Without a replaced route, rolling back forgets the active one and settles at once. */
  function Rollback(h: Host, leaseId: CallId): Host
    requires leaseId in h.calls && h.calls[leaseId].Leased? && h.calls[leaseId].sid in h.states
  {
    var lease := h.calls[leaseId];
    var s := h.states[lease.sid];
    if lease.replaced.Some? then NewCall(h, Activation(h, lease, lease.replaced.value))
    else if s.fenceToken != Some(lease.token) then
      NewCall(h, Activating(lease.sid, lease.token, lease.candidate, false, Returning(false)))
    else h.(states := h.states[lease.sid := s.(active := None, fenceToken := None)])
  }

  /** The session with the route's network open. */
  function Opened(s: Session, route: Route): Session {
    s.(mode := AllowRoutes, active := Some(route), lastOrigins := route.origins)
  }

  /** The new view: the network is open and it is set, before anything is loaded into it. */
  function Install(h: Host, id: CallId, route: Route): Host
    requires id in h.calls && h.calls[id].Activating? && h.calls[id].sid in h.states
  {
    var c := h.calls[id];
    h.(states := h.states[c.sid := Opened(h.states[c.sid], route).(view := Some(View(h.next, false)))],
       calls := h.calls[id := c.(stage := Loading(h.next, route.identity.generationId))],
       next := h.next + 1)
  }

  /** No view can be created: the activation throws with the network already open. */
  function OpenOnly(h: Host, id: CallId, route: Route): Host
    requires id in h.calls && h.calls[id].Activating? && h.calls[id].sid in h.states
  {
    var c := h.calls[id];
    SetStage(h.(states := h.states[c.sid := Opened(h.states[c.sid], route)]), id, Returning(false))
  }

  function Activate(h: Host, id: CallId, route: Route, outcome: Outcome): Host
    requires id in h.calls && h.calls[id].Activating? && h.calls[id].sid in h.states
  {
    if outcome.Viewless? then OpenOnly(h, id, route) else Install(h, id, route)
  }

  /** The activation makes its route the session's active one in this step. */
  predicate Installs(c: Call, outcome: Outcome) {
    && c.Activating? && !outcome.Rejected?
    && ((c.stage.ClosingLease? && !c.stage.route.leased) || c.stage.SettingProxy?)
  }

  /** Whether a failed load still concerns the session: its view and generation are the ones that failed. */
  predicate LoadConcerns(s: Session, viewId: nat, generationId: string) {
    s.view.Some? && s.view.value.id == viewId && s.active.Some? && s.active.value.identity.generationId == generationId
  }

  function DropView(h: Host, sid: SessionId): Host
    requires sid in h.states
  {
    Put(h, sid, DestroyView(h.states[sid].(mode := DenyAll)))
  }

  function FinishActivation(h: Host, id: CallId): Host
    requires id in h.calls && h.calls[id].Activating? && h.calls[id].sid in h.states
  {
    var c := h.calls[id];
    var s := h.states[c.sid];
    if s.fenceToken != Some(c.token) then SetStage(h, id, Returning(false))
    else if !RequestedFor(s, c.identity) || !LiveView(s) then SetStage(DropView(h, c.sid), id, Returning(true))
    else SetStage(PlaceAndAttach(h, c.sid, s.requestedShow.value.bounds), id, Returning(true))
  }

  function SettleActivation(h: Host, id: CallId, normally: bool): Host
    requires id in h.calls && h.calls[id].Activating? && h.calls[id].sid in h.states
  {
    var c := h.calls[id];
    var settled := WithoutFence(h, c.sid, c.token);
    if c.byShow && normally then settled.(calls := settled.calls[id := ShowAfterCommit(c.sid)])
    else EndCall(settled, id)
  }

  function ResumeActivation(h: Host, id: CallId, outcome: Outcome): Host
    requires id in h.calls && h.calls[id].Activating? && h.calls[id].sid in h.states
  {
    var c := h.calls[id];
    var s := h.states[c.sid];
    match c.stage
    case Resolving =>
      if !outcome.Resolved? then SetStage(h, id, Returning(false))
      else if s.fenceToken != Some(c.token) || !RequestedFor(s, c.identity) then SetStage(h, id, Releasing)
      else if !outcome.safe then SetStage(h, id, Returning(false))
      else SetStage(Put(h, c.sid, DestroyView(s)), id, ClosingLease(Route(c.identity, outcome.origins, outcome.leased)))
    case Releasing => SetStage(h, id, Returning(!outcome.Rejected? && s.fenceToken == Some(c.token)))
    case ClosingLease(route) =>
      if outcome.Rejected? then SetStage(h, id, Returning(false))
      else if route.leased then SetStage(h, id, SettingProxy(route))
      else Activate(h, id, route, outcome)
    case SettingProxy(route) =>
      if outcome.Rejected? then SetStage(h, id, Returning(false)) else Activate(h, id, route, outcome)
    case Loading(viewId, generationId) =>
      if outcome.Rejected? && LoadConcerns(s, viewId, generationId) then
        SetStage(DropView(h, c.sid), id, Returning(false))
      else SetStage(h, id, Loaded)
    case Loaded => FinishActivation(h, id)
    case Returning(normally) => SettleActivation(h, id, normally)
  }

  /** A show whose commit has settled shows again what was requested meanwhile. */
  function ResumeShow(h: Host, id: CallId): Host
    requires id in h.calls && h.calls[id].ShowAfterCommit? && h.calls[id].sid in h.states
  {
    var s := h.states[h.calls[id].sid];
    if s.requestedShow.Some? && !HasActiveView(s, s.requestedShow.value.identity) then
      ShowDesign(EndCall(h, id), s.requestedShow.value)
    else EndCall(h, id)
  }

  function ResumeReload(h: Host, id: CallId, outcome: Outcome): Host
    requires id in h.calls && h.calls[id].Reloading? && h.calls[id].sid in h.states
  {
    var c := h.calls[id];
    if outcome.Rejected? && LoadConcerns(h.states[c.sid], c.viewId, c.generationId) then
      EndCall(DropView(h, c.sid), id)
    else
      EndCall(h, id)
  }

  /** The session is forgotten: no route, no fence, no links, and no longer its design's. */
  function Forget(h: Host, sid: SessionId): Host
    requires sid in h.states
  {
    var s := h.states[sid];
    var closed := h.(states := h.states[sid := s.(active := None, fenceToken := None, pendingLinks := [])]);
    if s.designId in h.sessions && h.sessions[s.designId] == sid then closed.(sessions := h.sessions - {s.designId})
    else closed
  }

  function CloseOrigins(h: Host, id: CallId, left: nat): Host
    requires id in h.calls && h.calls[id].Closing? && h.calls[id].sid in h.states
  {
    if left == 0 then EndCall(Forget(h, h.calls[id].sid), id)
    else h.(calls := h.calls[id := h.calls[id].(originsLeft := Some(left))])
  }

  function ResumeClose(h: Host, id: CallId, outcome: Outcome): Host
    requires id in h.calls && h.calls[id].Closing? && h.calls[id].sid in h.states
  {
    var c := h.calls[id];
    var s := h.states[c.sid];
    if outcome.Rejected? then EndCall(h.(states := h.states[c.sid := s.(closing := false)]), id)
    else CloseOrigins(h, id, if c.originsLeft.Some? then OneLess(c.originsLeft.value) else |s.lastOrigins|)
  }

  // ----- The whole step -----

  /** The event can happen: the session it concerns exists, and only a call in flight goes on. */
  predicate CanHappen(h: Host, e: Event) {
    match e
    case CommitCalled(lease) =>
      lease in h.calls && h.calls[lease].Leased? && !h.calls[lease].byShow && h.calls[lease].sid in h.states
    case RollbackCalled(lease) =>
      lease in h.calls && h.calls[lease].Leased? && !h.calls[lease].byShow && h.calls[lease].sid in h.states
    case LinkRequested(sid, _) => sid in h.states
    case ViewDestroyed(sid) => sid in h.states
    case Resumed(call, _) =>
      call in h.calls && h.calls[call].sid in h.states && (h.calls[call].Leased? ==> h.calls[call].byShow)
    case _ => true
  }

  function Step(h: Host, e: Event): Host
    requires CanHappen(h, e)
  {
    match e
    case AttachWindow(id, zoom, width, height) =>
      if h.window.Some? && h.window.value.id == id then h
      else NextEpoch(Detach(h)).(window := Some(Window(id, false, zoom, width, height, {})))
    case DetachWindow => Detach(h)
    case BeginCalled(designId, candidate, replaced) => BeginCutover(h, designId, candidate, replaced)
    case CommitCalled(lease) => Commit(h, lease)
    case RollbackCalled(lease) => Rollback(h, lease)
    case ShowCalled(input) => ShowDesign(h, input)
    case HideCalled(designId, requestId) => Hide(h, designId, requestId)
    case RefreshCalled(designId, generationId, requestId) => Refresh(h, designId, generationId, requestId)
    case CloseCalled(designId) => Close(h, designId)
    case ApproveCalled(designId, linkId) => Approve(h, designId, linkId)
    case GenerationUnavailable(generationId) =>
      DeactivateAll(h, SessionsOf(h, generationId), true)
    case RendererReset => NextEpoch(DeactivateAll(h, Mapped(h), false))
    case LinkRequested(sid, lifetime) => RequestLink(h, sid, lifetime)
    case ViewDestroyed(sid) =>
      var s := h.states[sid];
      if s.view.None? then h else h.(states := h.states[sid := s.(view := Some(s.view.value.(destroyed := true)))])
    case WindowDestroyed =>
      if h.window.None? then h else h.(window := Some(h.window.value.(destroyed := true, children := {})))
    case WindowResized(zoom, width, height) =>
      if h.window.None? then h else h.(window := Some(h.window.value.(zoom := zoom, width := width, height := height)))
    case TimePasses(now) => h.(now := now)
    case Resumed(call, outcome) =>
      match h.calls[call]
      case Beginning(_, _, _, _, _, _) => ResumeBegin(h, call, outcome)
      case Leased(_, _, candidate, _, _) => h.(calls := h.calls[call := Activation(h, h.calls[call], candidate)])
      case Activating(_, _, _, _, _) => ResumeActivation(h, call, outcome)
      case ShowAfterCommit(_) => ResumeShow(h, call)
      case Reloading(_, _, _) => ResumeReload(h, call, outcome)
      case Closing(_, _) => ResumeClose(h, call, outcome)
  }

  function Initial(now: int): Host {
    Host(map[], map[], None, 0, now, map[], [], 0)
  }

  /** A run: each event can happen where it comes. */
  ghost predicate Run(events: seq<Event>, hosts: seq<Host>) {
    && |hosts| == |events| + 1 && (exists now :: hosts[0] == Initial(now))
    && forall i :: 0 <= i < |events| ==> CanHappen(hosts[i], events[i]) && hosts[i + 1] == Step(hosts[i], events[i])
  }
}
