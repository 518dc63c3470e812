/**
 * What each call on the host does at once, session by session: who loses the view and the
 * request, who takes a fence, and which call starts or ends.
 */
module CanvasEffects {
  import opened Wrappers
  import opened CanvasBounds
  import opened DesignCanvas
  import opened CanvasSafety
  import opened CanvasCalls
  import opened CanvasCommits

  ghost predicate IsMapped(h: Host, sid: SessionId) {
    exists d :: d in h.sessions && h.sessions[d] == sid
  }

  /** Nothing is left of what was requested and shown but, if kept, the newest link that waits for an approval. */
  predicate Darkens(s: Session, t: Session, keepsLink: bool, now: int) {
    LeavesNothing(s, t) && t.pendingLinks == if keepsLink then RetainLatest(s.pendingLinks, now) else []
  }

  lemma DeactivateDarkens(s: Session, keepsLink: bool, now: int)
    requires SessionOk(s)
    ensures Darkens(s, Deactivate(s, keepsLink, now), keepsLink, now)
  {
  }

  /** Only sessions, and with them the window's views, change. */
  predicate OnlySessions(h: Host, g: Host) {
    g == h.(states := g.states, window := g.window) && g.states.Keys == h.states.Keys
  }

  /** Of an unavailable generation, exactly the designs that have it active lose what they request and show. */
  lemma UnavailableDarkens(h: Host, g: Host, generationId: string, sid: SessionId)
    requires Inv(h) && sid in h.states && g == Step(h, GenerationUnavailable(generationId))
    ensures OnlySessions(h, g)
    ensures var s := h.states[sid];
            if IsMapped(h, sid) && s.active.Some? && s.active.value.identity.generationId == generationId then
              Darkens(s, g.states[sid], true, h.now)
            else g.states[sid] == s
  {
    DeactivateDarkens(h.states[sid], true, h.now);
  }

  /** The id can be accepted: it is a safe integer, of the session's epoch, and no earlier than the last accepted. */
  predicate MayAsk(h: Host, sid: SessionId, requestId: int)
    requires sid in h.states
  {
    && 0 <= requestId < 0x20_0000_0000_0000 && h.states[sid].rendererEpoch == h.rendererEpoch
    && requestId >= h.states[sid].requestId
  }

  /** A design is hidden by an accepted request alone, and no other design with it. */
  lemma HideDarkens(h: Host, g: Host, designId: DesignId, requestId: int)
    requires Inv(h) && g == Step(h, HideCalled(designId, requestId))
    ensures if designId in h.sessions && MayAsk(h, h.sessions[designId], requestId) then
              var sid := h.sessions[designId];
              && OnlySessions(h, g) && g.states == h.states[sid := g.states[sid]]
              && Darkens(h.states[sid].(requestId := requestId), g.states[sid], true, h.now)
            else g == h
  {
    if designId in h.sessions && MayAsk(h, h.sessions[designId], requestId) {
      DeactivateDarkens(h.states[h.sessions[designId]].(requestId := requestId), true, h.now);
    }
  }

  /** The refresh concerns what the design shows: it is still the one requested, and no cutover is under way. */
  predicate Refreshes(h: Host, sid: SessionId, generationId: string)
    requires sid in h.states
  {
    var s := h.states[sid];
    s.requestedShow.Some? && s.requestedShow.value.identity.generationId == generationId && s.fenceToken.None?
  }

  /** The request recorded, and nothing else. */
  predicate Recorded(h: Host, g: Host, sid: SessionId, requestId: int)
    requires sid in h.states
  {
    g == h.(states := h.states[sid := h.states[sid].(requestId := requestId)])
  }

  /** The view that an accepted refresh finds live is loaded again. */
  lemma RefreshReloads(h: Host, g: Host, designId: DesignId, generationId: string, requestId: int)
    requires Inv(h) && g == Step(h, RefreshCalled(designId, generationId, requestId))
    requires designId in h.sessions && MayAsk(h, h.sessions[designId], requestId)
    requires Refreshes(h, h.sessions[designId], generationId)
    requires var s := h.states[h.sessions[designId]]; s.view.Some? && !s.view.value.destroyed && s.active.Some?
    ensures var s := h.states[h.sessions[designId]];
            && h.next in g.calls
            && g.calls[h.next] ==
               Reloading(h.sessions[designId], s.view.value.id, s.active.value.identity.generationId)
            && Recorded(h, g.(calls := h.calls, next := h.next), h.sessions[designId], requestId)
            && g.calls == h.calls[h.next := g.calls[h.next]] && g.next == h.next + 1
  {
  }

  /** Without a live view it is shown again as it was last requested. */
  lemma RefreshShows(h: Host, g: Host, designId: DesignId, generationId: string, requestId: int)
    requires Inv(h) && g == Step(h, RefreshCalled(designId, generationId, requestId))
    requires designId in h.sessions && MayAsk(h, h.sessions[designId], requestId)
    requires Refreshes(h, h.sessions[designId], generationId)
    requires var s := h.states[h.sessions[designId]]; s.view.None? || s.view.value.destroyed
    ensures var s := h.states[h.sessions[designId]];
            var asked := h.(states := h.states[h.sessions[designId] := s.(requestId := requestId)]);
            g == Step(asked, ShowCalled(s.requestedShow.value.(requestId := requestId)))
  {
  }

  /** Any other refresh only records its id, if that is accepted. */
  lemma RefreshElse(h: Host, g: Host, designId: DesignId, generationId: string, requestId: int)
    requires Inv(h) && g == Step(h, RefreshCalled(designId, generationId, requestId))
    requires designId in h.sessions && MayAsk(h, h.sessions[designId], requestId) ==>
               !Refreshes(h, h.sessions[designId], generationId) ||
               (LiveView(h.states[h.sessions[designId]]) && h.states[h.sessions[designId]].active.None?)
    ensures if designId in h.sessions && MayAsk(h, h.sessions[designId], requestId) then
              Recorded(h, g, h.sessions[designId], requestId)
            else g == h
  {
  }

  // ----- A request to show -----

  /** The session gives way to another design, if it has anything to give up. */
  predicate GaveWay(s: Session, t: Session, now: int) {
    if s.requestedShow.Some? || s.view.Some? || s.mode == AllowRoutes then Darkens(s, t, true, now) else t == s
  }

  /** The design's session, with a new one in its place where it has none. */
  predicate Has(h: Host, ready: Host, designId: DesignId, sid: SessionId) {
    && designId in ready.sessions && ready.sessions[designId] == sid && sid in ready.states
    && if designId in h.sessions then ready == h
       else
         && sid == h.next && ready == h.(states := h.states[sid := ready.states[sid]],
                                         sessions := h.sessions[designId := sid], next := h.next + 1)
         && ready.states[sid] == Session(designId, DenyAll, None, false, None, [], -1, h.rendererEpoch, None, None, [],
                                         false)
  }

  /** A request is accepted for a design that is not closing; every other design on show gives way to it. */
  lemma RequestGives(h: Host, g: Host, sid: SessionId, input: Show, other: SessionId)
    requires Inv(h) && sid in h.states && h.states[sid].designId == input.designId && IsMapped(h, sid)
    requires g == Request(h, sid, input)
    ensures OnlySessions(h, g) && other != sid && IsMapped(h, other) && other in h.states ==>
              GaveWay(h.states[other], g.states[other], h.now)
    ensures other in h.states && !IsMapped(h, other) ==> other in g.states && g.states[other] == h.states[other]
    ensures g.states[sid] == h.states[sid].(requestId := input.requestId, requestedShow := Some(input))
  {
    if other in h.states { DeactivateDarkens(h.states[other], true, h.now); }
  }

  lemma SessionReady(h: Host, designId: DesignId) returns (ready: Host, sid: SessionId)
    requires Inv(h)
    ensures Has(h, ready, designId, sid) && Inv(ready)
  {
    ready := WithSession(h, designId);
    sid := ready.sessions[designId];
    WithSessionKeeps(h, designId);
  }

  /** A cutover begins: a new fence, the network denied, and a call that waits for the connections to close. */
  predicate Begins(h: Host, g: Host, sid: SessionId, s: Session, candidate: Identity, replaced: Option<Identity>,
                   byShow: bool) {
    && sid in g.states && g.next == h.next + 2
    && g.states[sid] == s.(fenceToken := Some(h.next), mode := DenyAll,
                           pendingLinks := RetainLatest(s.pendingLinks, h.now))
    && g.calls == h.calls[h.next + 1 := Beginning(sid, h.next, candidate, replaced, byShow, None)]
  }

  predicate MayReplace(candidate: Identity, replaced: Option<Identity>) {
    replaced.Some? ==> ValidIdentity(replaced.value) && replaced.value.taskId == candidate.taskId
  }

  /**
   * What a request that was recorded goes on to: it waits where a cutover is under way, attaches a live view
   * of what it asks for, and else begins a cutover to it from the route that is active.
   */
  ghost predicate Presents(h: Host, g: Host, sid: SessionId, input: Show)
    requires sid in h.states
  {
    var s := h.states[sid];
    var replaced := if s.active.Some? then Some(s.active.value.identity) else None;
    && sid in g.states && g.states == h.states[sid := g.states[sid]]
    && if s.fenceToken.Some? then g == h
       else if s.view.Some? && !s.view.value.destroyed && replaced == Some(input.identity) then
         && g.calls == h.calls
         && if Visible(h, sid) then g.states[sid] == s.(attached := true)
            else Darkens(s, g.states[sid], true, h.now)
       else if MayReplace(input.identity, replaced) then Begins(h, g, sid, s, input.identity, replaced, true)
       else g == h
  }

  lemma PlaceDarkens(h: Host, sid: SessionId)
    requires sid in h.states && SessionOk(h.states[sid]) && h.states[sid].requestedShow.Some? && !Visible(h, sid)
    requires LiveView(h.states[sid])
    ensures var g := PlaceAndAttach(h, sid, h.states[sid].requestedShow.value.bounds);
            sid in g.states && Darkens(h.states[sid], g.states[sid], true, h.now)
  {
    DeactivateDarkens(h.states[sid], true, h.now);
  }

  lemma PresentPlaces(h: Host, g: Host, sid: SessionId, input: Show)
    requires sid in h.states && SessionOk(h.states[sid]) && h.states[sid].requestedShow == Some(input)
    requires g == Present(h, sid, input) && h.states[sid].fenceToken.None?
    requires HasActiveView(h.states[sid], input.identity)
    ensures Presents(h, g, sid, input)
  {
    PlaceLeaves(h, sid);
    if !Visible(h, sid) { PlaceDarkens(h, sid); }
  }

  lemma PresentGoes(h: Host, g: Host, sid: SessionId, input: Show)
    requires sid in h.states && SessionOk(h.states[sid]) && h.states[sid].requestedShow == Some(input)
    requires ValidIdentity(input.identity) && g == Present(h, sid, input)
    ensures Presents(h, g, sid, input)
  {
    var s := h.states[sid];
    if s.fenceToken.None? && HasActiveView(s, input.identity) { PresentPlaces(h, g, sid, input); }
  }

  /** The design can be worked on: it is not closing. */
  predicate Open(ready: Host, sid: SessionId) {
    sid in ready.states && !ready.states[sid].closing
  }

  /** A show of no valid identity, or of a closing design, is refused; one not accepted only makes the session. */
  lemma ShowRefused(h: Host, ready: Host, g: Host, sid: SessionId, input: Show)
    requires Inv(h) && Has(h, ready, input.designId, sid) && g == Step(h, ShowCalled(input))
    requires !ValidIdentity(input.identity) || !Open(ready, sid) || !MayAsk(ready, sid, input.requestId)
    ensures g == if ValidIdentity(input.identity) && Open(ready, sid) then ready else h
  {
    assert ready == WithSession(h, input.designId);
  }

  lemma ShowIs(h: Host, ready: Host, g: Host, sid: SessionId, input: Show)
    requires Inv(h) && Has(h, ready, input.designId, sid) && g == Step(h, ShowCalled(input))
    requires ValidIdentity(input.identity) && Open(ready, sid) && MayAsk(ready, sid, input.requestId)
    ensures g == Present(Request(ready, sid, input), sid, input)
  {
    assert ready == WithSession(h, input.designId);
  }

  lemma RequestOk(ready: Host, sid: SessionId, input: Show)
    requires sid in ready.states && SessionOk(ready.states[sid]) && ready.states[sid].designId == input.designId
    requires Open(ready, sid)
    ensures var requested := Request(ready, sid, input);
            sid in requested.states && SessionOk(requested.states[sid]) &&
            requested.states[sid].requestedShow == Some(input)
  {
  }

  lemma ReadyOk(h: Host, ready: Host, designId: DesignId, sid: SessionId)
    requires Inv(h) && Has(h, ready, designId, sid)
    ensures SessionOk(ready.states[sid]) && ready.states[sid].designId == designId
  {
  }

  /** Any other is requested and presented. */
  lemma ShowPresents(h: Host, ready: Host, g: Host, sid: SessionId, input: Show)
    requires Inv(h) && Has(h, ready, input.designId, sid) && g == Step(h, ShowCalled(input))
    requires ValidIdentity(input.identity) && Open(ready, sid) && MayAsk(ready, sid, input.requestId)
    ensures sid in Request(ready, sid, input).states && Presents(Request(ready, sid, input), g, sid, input)
  {
    ReadyOk(h, ready, input.designId, sid);
    RequestOk(ready, sid, input);
    ShowIs(h, ready, g, sid, input);
    PresentGoes(Request(ready, sid, input), g, sid, input);
  }

  /** A cutover is refused for a closing design, or where its routes are not valid ones of one task. */
  lemma CutoverRefused(h: Host, ready: Host, g: Host, sid: SessionId, designId: DesignId, candidate: Identity,
                       replaced: Option<Identity>)
    requires Inv(h) && Has(h, ready, designId, sid) && g == Step(h, BeginCalled(designId, candidate, replaced))
    requires !ValidIdentity(candidate) || !MayReplace(candidate, replaced) || !Open(ready, sid)
    ensures g == h
  {
    assert ready == WithSession(h, designId);
  }

  /** Any other begins. */
  lemma CutoverBegins(h: Host, ready: Host, g: Host, sid: SessionId, designId: DesignId, candidate: Identity,
                      replaced: Option<Identity>)
    requires Inv(h) && Has(h, ready, designId, sid) && g == Step(h, BeginCalled(designId, candidate, replaced))
    requires ValidIdentity(candidate) && MayReplace(candidate, replaced) && Open(ready, sid)
    ensures Begins(ready, g, sid, ready.states[sid], candidate, replaced, false)
    ensures g.states == ready.states[sid := g.states[sid]]
  {
    assert ready == WithSession(h, designId);
    assert g == BeginCutover(h, designId, candidate, replaced);
  }

  // ----- A cutover's beginning, and a close -----

  predicate BeginningAt(h: Host, id: CallId) {
    id in h.calls && h.calls[id].Beginning? && h.calls[id].sid in h.states
  }

  function ViewGone(s: Session): Session {
    if s.view.Some? then s.(view := None, attached := false) else s
  }

  /** Only this call changes or ends, and only this session. */
  predicate OnlyCall(h: Host, g: Host, id: CallId, sid: SessionId) {
    && sid in g.states && g.states == h.states[sid := g.states[sid]] && g.next == h.next
    && (if id in g.calls then g.calls == h.calls[id := g.calls[id]] else g.calls == h.calls - {id})
  }

  /** The origins still to clear once this await has settled. */
  function OriginsLeft(h: Host, id: CallId): nat
    requires BeginningAt(h, id)
  {
    var c := h.calls[id];
    if c.originsLeft.None? then |h.states[c.sid].lastOrigins|
    else if c.originsLeft.value == 0 then 0 else c.originsLeft.value - 1
  }

  /** A beginning that fails gives its fence back. */
  lemma BeginFailing(h: Host, g: Host, id: CallId)
    requires BeginningAt(h, id) && g == Step(h, Resumed(id, Rejected))
    ensures var c := h.calls[id]; var s := h.states[c.sid];
            && OnlyCall(h, g, id, c.sid) && id !in g.calls
            && g.states[c.sid] == if s.fenceToken == Some(c.token) then s.(fenceToken := None) else s
  {
  }

  /**
   * Its connections close, and the view goes; then each origin is cleared; then the lease is handed out,
   * if the fence is still its own.
   */
  lemma BeginSettles(h: Host, g: Host, id: CallId, outcome: Outcome)
    requires BeginningAt(h, id) && !outcome.Rejected? && g == ResumeBegin(h, id, outcome)
    ensures var c := h.calls[id]; var s := h.states[c.sid];
            && OnlyCall(h, g, id, c.sid)
            && g.states[c.sid] == (if c.originsLeft.None? then ViewGone(s) else s)
            && if OriginsLeft(h, id) > 0 then
                 id in g.calls && g.calls[id] == c.(originsLeft := Some(OriginsLeft(h, id)))
               else if s.fenceToken == Some(c.token) then
                 id in g.calls && g.calls[id] == Leased(c.sid, c.token, c.candidate, c.replaced, c.byShow)
               else id !in g.calls
  {
  }

  function Times(e: Event, n: nat): (events: seq<Event>)
    ensures |events| == n
  {
    if n == 0 then [] else Times(e, n - 1) + [e]
  }

  /** The beginning of a lease whose fence stands, with so many origins left to clear. */
  predicate Underway(h: Host, id: CallId, c: Call, left: Option<nat>)
    requires c.Beginning?
  {
    BeginningAt(h, id) && h.calls[id] == c.(originsLeft := left) && h.states[c.sid].fenceToken == Some(c.token)
  }

  lemma BeginGoesOn(h: Host, g: Host, id: CallId, c: Call, left: Option<nat>)
    requires c.Beginning? && Underway(h, id, c, left) && g == Step(h, Resumed(id, Settled)) && OriginsLeft(h, id) > 0
    ensures Underway(g, id, c, Some(OriginsLeft(h, id)))
  {
    BeginSettles(h, g, id, Settled);
  }

  /** One await closes the connections, and each of the next clears an origin. */
  lemma {:induction false} OriginsClear(h: Host, id: CallId, c: Call, m: nat) returns (hosts: seq<Host>)
    requires c.Beginning? && Underway(h, id, c, None) && 0 < m <= |h.states[c.sid].lastOrigins|
    ensures Stretch(h, Times(Resumed(id, Settled), m), hosts)
    ensures Underway(hosts[m], id, c, Some(|h.states[c.sid].lastOrigins| + 1 - m))
    decreases m
  {
    var before := [h];
    if m > 1 { before := OriginsClear(h, id, c, m - 1); }
    var last := before[m - 1];
    var g := Step(last, Resumed(id, Settled));
    BeginGoesOn(last, g, id, c, if m == 1 then None else Some(|h.states[c.sid].lastOrigins| + 2 - m));
    Longer(h, Times(Resumed(id, Settled), m - 1), before, Resumed(id, Settled), g);
    hosts := before + [g];
  }

  /** A lease is handed out once its connections have closed and each of the session's last origins is cleared. */
  lemma UndisturbedBegin(h: Host, id: CallId, c: Call) returns (hosts: seq<Host>)
    requires c.Beginning? && Underway(h, id, c, None)
    ensures var awaits := 1 + |h.states[c.sid].lastOrigins|;
            && Stretch(h, Times(Resumed(id, Settled), awaits), hosts) && id in hosts[awaits].calls
            && hosts[awaits].calls[id] == Leased(c.sid, c.token, c.candidate, c.replaced, c.byShow)
  {
    var n := |h.states[c.sid].lastOrigins|;
    hosts := [h];
    if n > 0 { hosts := OriginsClear(h, id, c, n); }
    var g := Step(hosts[n], Resumed(id, Settled));
    BeginSettles(hosts[n], g, id, Settled);
    Longer(h, Times(Resumed(id, Settled), n), hosts, Resumed(id, Settled), g);
    hosts := hosts + [g];
  }

  /** A close darkens its design for good, keeps no link, and waits for the connections; a second one joins it. */
  lemma CloseDarkens(h: Host, g: Host, designId: DesignId)
    requires Inv(h) && g == Step(h, CloseCalled(designId))
    ensures if designId in h.sessions && !h.states[h.sessions[designId]].closing then
              var sid := h.sessions[designId];
              && sid in g.states && g.states == h.states[sid := g.states[sid]] && g.sessions == h.sessions
              && Darkens(h.states[sid].(closing := true), g.states[sid], false, h.now)
              && g.calls == h.calls[h.next := Closing(sid, None)]
            else g == h
  {
    if designId in h.sessions { DeactivateDarkens(h.states[h.sessions[designId]], false, h.now); }
  }

  predicate ClosingAt(h: Host, id: CallId) {
    id in h.calls && h.calls[id].Closing? && h.calls[id].sid in h.states
  }

  function OriginsToClose(h: Host, id: CallId): nat
    requires ClosingAt(h, id)
  {
    var c := h.calls[id];
    if c.originsLeft.None? then |h.states[c.sid].lastOrigins|
    else if c.originsLeft.value == 0 then 0 else c.originsLeft.value - 1
  }

  /**
   * With its origins cleared the session is forgotten: no route, no fence, no link, and its design is free
   * for a new one. A failure lets the design be closed again.
   */
  lemma CloseSettles(h: Host, g: Host, id: CallId, outcome: Outcome)
    requires ClosingAt(h, id) && g == Step(h, Resumed(id, outcome))
    ensures var c := h.calls[id]; var s := h.states[c.sid];
            && OnlyCall(h, g, id, c.sid)
            && if outcome.Rejected? then
                 id !in g.calls && g.states[c.sid] == s.(closing := false) && g.sessions == h.sessions
               else if OriginsToClose(h, id) > 0 then
                 && id in g.calls && g.calls[id] == Closing(c.sid, Some(OriginsToClose(h, id)))
                 && g.states == h.states && g.sessions == h.sessions
               else
                 && id !in g.calls && g.states[c.sid] == s.(active := None, fenceToken := None, pendingLinks := [])
                 && g.sessions == if s.designId in h.sessions && h.sessions[s.designId] == c.sid
                                  then h.sessions - {s.designId} else h.sessions
  {
  }

  // ----- An approval -----

  predicate Waits(links: seq<Link>, linkId: nat) {
    exists l :: l in links && l.id == linkId
  }

  /** An approval uses up the pending link of its design that it names, and opens it unless it has expired. */
  lemma ApprovalUses(h: Host, g: Host, designId: DesignId, linkId: nat) returns (i: nat)
    requires Inv(h) && g == Step(h, ApproveCalled(designId, linkId))
    ensures if designId in h.sessions && Waits(h.states[h.sessions[designId]].pendingLinks, linkId) then
              var sid := h.sessions[designId]; var links := h.states[sid].pendingLinks;
              && i < |links| && links[i].id == linkId
              && g == h.(states := h.states[sid := h.states[sid].(pendingLinks := links[..i] + links[i + 1..])],
                         openedLinks := h.openedLinks + if h.now <= links[i].expiresAt then [linkId] else [])
            else g == h
  {
    i := 0;
    if designId in h.sessions {
      var found := FindLink(h.states[h.sessions[designId]].pendingLinks, linkId);
      if found >= 0 { i := found; }
    }
  }

  // ----- A rollback -----

  /** A rollback activates the route that was replaced; with none to go back to, no route is active any more. */
  lemma RollbackDrives(h: Host, g: Host, leaseId: CallId)
    requires CanHappen(h, RollbackCalled(leaseId)) && g == Step(h, RollbackCalled(leaseId))
    ensures var lease := h.calls[leaseId]; var s := h.states[lease.sid];
            if lease.replaced.Some? then Drives(h, g, lease, lease.replaced.value)
            else if s.fenceToken == Some(lease.token) then
              g == h.(states := h.states[lease.sid := s.(active := None, fenceToken := None)])
            else
              && h.next in g.calls && g == h.(calls := h.calls[h.next := g.calls[h.next]], next := h.next + 1)
              && g.calls[h.next].Activating? && g.calls[h.next].stage == Returning(false)
  {
  }

  // ----- The window and its renderer -----

  /** The window goes, and every mapped design with it: no fence, nothing requested or shown, no link. */
  lemma DetachDarkens(h: Host, g: Host, sid: SessionId)
    requires Inv(h) && sid in h.states && g == Step(h, DetachWindow)
    ensures g == h.(states := g.states, window := None) && g.states.Keys == h.states.Keys
    ensures if IsMapped(h, sid) then Darkens(h.states[sid].(fenceToken := None), g.states[sid], false, h.now)
            else g.states[sid] == h.states[sid]
  {
    DeactivateDarkens(h.states[sid].(fenceToken := None), false, h.now);
  }

  /** A session of the renderer's next epoch, in which no request has been accepted yet. */
  function InNextEpoch(h: Host, s: Session): Session {
    s.(rendererEpoch := h.rendererEpoch + 1, requestId := -1)
  }

  lemma EpochEnters(h: Host, sid: SessionId)
    requires sid in h.states
    ensures var g := NextEpoch(h);
            && g == h.(states := g.states, rendererEpoch := h.rendererEpoch + 1) && sid in g.states
            && g.states[sid] == if IsMapped(h, sid) then InNextEpoch(h, h.states[sid]) else h.states[sid]
  {
  }

  /** Another window takes the place of the one before, in a new epoch. */
  lemma WindowTakesOver(h: Host, g: Host, w: Window, sid: SessionId)
    requires Inv(h) && sid in h.states && !w.destroyed && w.children == {}
    requires h.window.None? || h.window.value.id != w.id
    requires g == Step(h, AttachWindow(w.id, w.zoom, w.width, w.height))
    ensures g == h.(states := g.states, rendererEpoch := h.rendererEpoch + 1, window := Some(w)) && sid in g.states
    ensures if IsMapped(h, sid) then
              Darkens(InNextEpoch(h, h.states[sid]).(fenceToken := None), g.states[sid], false, h.now)
            else g.states[sid] == h.states[sid]
  {
    var off := Detach(h);
    DetachDarkens(h, off, sid);
    EpochEnters(off, sid);
    assert IsMapped(off, sid) <==> IsMapped(h, sid);
    assert g == NextEpoch(off).(window := Some(w));
  }

  /** The same window, attached again, changes nothing. */
  lemma WindowStays(h: Host, g: Host, id: nat, zoom: Number, width: real, height: real)
    requires h.window.Some? && h.window.value.id == id && g == Step(h, AttachWindow(id, zoom, width, height))
    ensures g == h
  {
  }

  /** A renderer that navigates or dies takes every mapped design's request and view, and leaves its fence. */
  lemma ResetDarkens(h: Host, g: Host, sid: SessionId)
    requires Inv(h) && sid in h.states && g == Step(h, RendererReset)
    ensures g == h.(states := g.states, rendererEpoch := h.rendererEpoch + 1, window := g.window)
    ensures sid in g.states
    ensures if IsMapped(h, sid) then Darkens(InNextEpoch(h, h.states[sid]), g.states[sid], false, h.now)
            else g.states[sid] == h.states[sid]
  {
    DeactivateDarkens(h.states[sid], false, h.now);
  }

  /** A show whose commit has settled shows again what has been requested meanwhile and is not on show. */
  lemma ShowsAgain(h: Host, g: Host, id: CallId, outcome: Outcome)
    requires id in h.calls && h.calls[id].ShowAfterCommit? && h.calls[id].sid in h.states
    requires g == Step(h, Resumed(id, outcome))
    ensures var s, ended := h.states[h.calls[id].sid], h.(calls := h.calls - {id});
            g == if s.requestedShow.Some? &&
                    (s.view.None? || s.view.value.destroyed || s.active.None? ||
                     s.active.value.identity != s.requestedShow.value.identity)
                 then Step(ended, ShowCalled(s.requestedShow.value)) else ended
  {
  }

  /** The lease of a show is driven at once. */
  lemma ShowDrives(h: Host, g: Host, id: CallId, outcome: Outcome)
    requires CanHappen(h, Resumed(id, outcome)) && h.calls[id].Leased? && g == Step(h, Resumed(id, outcome))
    ensures var c := h.calls[id];
            && id in g.calls && g == h.(calls := h.calls[id := g.calls[id]])
            && g.calls[id] == Activating(c.sid, c.token, c.candidate, true, g.calls[id].stage)
            && (g.calls[id].stage == Returning(false) <==> !HasFence(h, g.calls[id]))
            && (g.calls[id].stage == Resolving <==> HasFence(h, g.calls[id]) && Wanted(h, g.calls[id]))
            && (g.calls[id].stage == Returning(true) <==> HasFence(h, g.calls[id]) && !Wanted(h, g.calls[id]))
  {
  }
}
