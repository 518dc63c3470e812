/**
 * What becomes of a call in flight: no other event changes it, so where an activation stands
 * says which awaits of its own have settled, and how. A failed load fails its activation for
 * good, unless its view has been replaced.
 */
module CanvasCalls {
  import opened Wrappers
  import opened CanvasBounds
  import opened DesignCanvas
  import opened CanvasSafety
  import opened CanvasFrames
  import opened CanvasFences
  import opened CanvasLeases
  import opened CanvasSuperseded

  // ----- Calls change by their own events alone -----

  /** A new activation is about to resolve its route, or to return. */
  predicate Starting(c: Call) {
    c.Activating? ==> c.stage.Resolving? || c.stage.Returning?
  }

  /** All calls but these stay as they are, and new ones only start. */
  ghost predicate CallsStay(h: Host, g: Host, but: set<CallId>) {
    && h.next <= g.next
    && (forall id :: id in h.calls && id < h.next && id !in but ==> id in g.calls && g.calls[id] == h.calls[id])
    && (forall id :: id in g.calls && id !in h.calls ==> h.next <= id && Starting(g.calls[id]))
  }

  lemma SameStay(h: Host, g: Host, but: set<CallId>)
    requires g.calls == h.calls && h.next <= g.next
    ensures CallsStay(h, g, but)
  {
  }

  lemma OneStays(h: Host, g: Host, id: CallId)
    requires h.next <= g.next && id in h.calls
    requires g.calls == h.calls - {id} || (id in g.calls && g.calls == h.calls[id := g.calls[id]])
    ensures CallsStay(h, g, {id})
  {
  }

  lemma StartBeginStays(h: Host, at: SessionId, candidate: Identity, replaced: Option<Identity>, byShow: bool)
    requires at in h.states
    ensures CallsStay(h, StartBegin(h, at, candidate, replaced, byShow), {})
  {
  }

  lemma PresentStays(h: Host, at: SessionId, input: Show)
    requires at in h.states
    ensures CallsStay(h, Present(h, at, input), {})
  {
    var s := h.states[at];
    var replaced := if s.active.Some? then Some(s.active.value.identity) else None;
    StartBeginStays(h, at, input.identity, replaced, true);
    SameStay(h, h, {});
    SameStay(h, PlaceAndAttach(h, at, input.bounds), {});
  }

  lemma ShowStays(h: Host, input: Show)
    ensures CallsStay(h, ShowDesign(h, input), {})
  {
    var ready := WithSession(h, input.designId);
    SameStay(h, h, {});
    SameStay(h, ready, {});
    var g := ShowDesign(h, input);
    if g != h && g != ready {
      var at := RequireSession(h, input.designId).value;
      SameStay(ready, Request(ready, at, input), {});
      PresentStays(Request(ready, at, input), at, input);
    }
  }

  lemma RefreshStays(h: Host, designId: DesignId, generationId: string, requestId: int)
    ensures CallsStay(h, Refresh(h, designId, generationId, requestId), {})
  {
    SameStay(h, h, {});
    if designId in h.sessions && h.sessions[designId] in h.states &&
       Accepts(h.states[h.sessions[designId]], h.rendererEpoch, requestId) {
      var at := h.sessions[designId];
      var s := h.states[at];
      var accepted := h.(states := h.states[at := s.(requestId := requestId)]);
      SameStay(h, accepted, {});
      if s.requestedShow.Some? && !LiveView(s) { ShowStays(accepted, s.requestedShow.value.(requestId := requestId)); }
    }
  }

  lemma FinishStays(h: Host, id: CallId)
    requires id in h.calls && h.calls[id].Activating? && h.calls[id].sid in h.states
    ensures CallsStay(h, FinishActivation(h, id), {id})
  {
    FinishedCall(h, id);
    FinishFrame(h, id);
    OneStays(h, FinishActivation(h, id), id);
  }

  lemma SettleStays(h: Host, id: CallId, normally: bool)
    requires id in h.calls && h.calls[id].Activating? && h.calls[id].sid in h.states
    ensures CallsStay(h, SettleActivation(h, id, normally), {id})
  {
    OneStays(h, SettleActivation(h, id, normally), id);
  }

  lemma StageStays(h: Host, id: CallId, outcome: Outcome)
    requires id in h.calls && h.calls[id].Activating? && h.calls[id].sid in h.states
    requires !h.calls[id].stage.Loaded? && !h.calls[id].stage.Returning?
    ensures CallsStay(h, ResumeActivation(h, id, outcome), {id})
  {
    OneStays(h, ResumeActivation(h, id, outcome), id);
  }

  lemma ActivationStays(h: Host, id: CallId, outcome: Outcome)
    requires id in h.calls && h.calls[id].Activating? && h.calls[id].sid in h.states
    ensures CallsStay(h, ResumeActivation(h, id, outcome), {id})
  {
    match h.calls[id].stage {
      case Loaded => FinishStays(h, id);
      case Returning(normally) => SettleStays(h, id, normally);
      case _ => StageStays(h, id, outcome);
    }
  }

  lemma BeginStays(h: Host, id: CallId, outcome: Outcome)
    requires id in h.calls && h.calls[id].Beginning? && h.calls[id].sid in h.states
    ensures CallsStay(h, ResumeBegin(h, id, outcome), {id})
  {
    OneStays(h, ResumeBegin(h, id, outcome), id);
  }

  lemma OtherResumedStays(h: Host, id: CallId, outcome: Outcome)
    requires CanHappen(h, Resumed(id, outcome)) &&
             (h.calls[id].Leased? || h.calls[id].Reloading? || h.calls[id].Closing?)
    ensures CallsStay(h, Step(h, Resumed(id, outcome)), {id})
  {
    OneStays(h, Step(h, Resumed(id, outcome)), id);
  }

  lemma ResumeShowStays(h: Host, id: CallId)
    requires id in h.calls && id < h.next && h.calls[id].ShowAfterCommit? && h.calls[id].sid in h.states
    ensures CallsStay(h, ResumeShow(h, id), {id})
  {
    OneStays(h, EndCall(h, id), id);
    var s := h.states[h.calls[id].sid];
    if s.requestedShow.Some? { ShowStays(EndCall(h, id), s.requestedShow.value); }
  }

  lemma BeginCutoverStays(h: Host, designId: DesignId, candidate: Identity, replaced: Option<Identity>)
    ensures CallsStay(h, BeginCutover(h, designId, candidate, replaced), {})
  {
    var ready := WithSession(h, designId);
    SameStay(h, h, {});
    SameStay(h, ready, {});
    if BeginCutover(h, designId, candidate, replaced) != h {
      StartBeginStays(ready, RequireSession(h, designId).value, candidate, replaced, false);
    }
  }

  lemma CallingEventsStay(h: Host, e: Event)
    requires CanHappen(h, e) && (e.BeginCalled? || e.CommitCalled? || e.RollbackCalled? || e.CloseCalled?)
    ensures CallsStay(h, Step(h, e), {})
  {
    if e.BeginCalled? { BeginCutoverStays(h, e.designId, e.candidate, e.replaced); }
  }

  lemma QuietEventsStay(h: Host, e: Event)
    requires CanHappen(h, e) && !e.ShowCalled? && !e.RefreshCalled? && !e.Resumed?
    requires !e.BeginCalled? && !e.CommitCalled? && !e.RollbackCalled? && !e.CloseCalled?
    ensures CallsStay(h, Step(h, e), {})
  {
    SameStay(h, Step(h, e), {});
  }

  function Resuming(e: Event): set<CallId> {
    if e.Resumed? then {e.call} else {}
  }

  lemma ResumedStays(h: Host, id: CallId, outcome: Outcome)
    requires Inv(h) && CanHappen(h, Resumed(id, outcome))
    ensures CallsStay(h, Step(h, Resumed(id, outcome)), {id})
  {
    if h.calls[id].Activating? {
      ActivationStays(h, id, outcome);
    } else if h.calls[id].ShowAfterCommit? {
      ResumeShowStays(h, id);
    } else if h.calls[id].Beginning? {
      BeginStays(h, id, outcome);
    } else {
      OtherResumedStays(h, id, outcome);
    }
  }

  /** No call but the one that goes on changes. */
  lemma StepStays(h: Host, e: Event)
    requires Inv(h) && CanHappen(h, e)
    ensures CallsStay(h, Step(h, e), Resuming(e))
  {
    if e.Resumed? {
      ResumedStays(h, e.call, e.outcome);
    } else if e.ShowCalled? {
      ShowStays(h, e.input);
    } else if e.RefreshCalled? {
      RefreshStays(h, e.designId, e.generationId, e.requestId);
    } else if e.BeginCalled? || e.CommitCalled? || e.RollbackCalled? || e.CloseCalled? {
      CallingEventsStay(h, e);
    } else {
      QuietEventsStay(h, e);
    }
  }

  /** The call came to be what it is in the step after `k`: it went on there, or started. */
  ghost predicate Since(events: seq<Event>, hosts: seq<Host>, k: nat, j: nat, id: CallId)
    requires |hosts| == |events| + 1 && k < j < |hosts|
  {
    && id in hosts[j].calls && id in hosts[k + 1].calls && hosts[k + 1].calls[id] == hosts[j].calls[id]
    && if id in hosts[k].calls then events[k].Resumed? && events[k].call == id else Starting(hosts[j].calls[id])
  }

  /** Each call in flight has come to where it stands by an event of its own, or has just started. */
  lemma {:induction false} CameThere(events: seq<Event>, hosts: seq<Host>, j: nat, id: CallId) returns (k: nat)
    requires Run(events, hosts) && j < |hosts| && id in hosts[j].calls
    ensures k < j && Since(events, hosts, k, j, id)
    decreases j
  {
    if j == 0 {
      assert false;
    } else {
      k := j - 1;
      RunKeeps(events, hosts, j - 1);
      StepStays(hosts[j - 1], events[j - 1]);
      if id in hosts[j - 1].calls && id !in Resuming(events[j - 1]) {
        assert id < hosts[j - 1].next;
        k := CameThere(events, hosts, j - 1, id);
      }
    }
  }

  // ----- What an await decides -----

  predicate ActivatingAt(h: Host, id: CallId, stage: Stage) {
    id in h.calls && h.calls[id].Activating? && h.calls[id].sid in h.states && h.calls[id].stage == stage
  }

  /** The lease still has its fence. */
  predicate HasFence(h: Host, c: Call)
    requires c.Activating?
  {
    c.sid in h.states && h.states[c.sid].fenceToken == Some(c.token)
  }

  predicate Wanted(h: Host, c: Call)
    requires c.Activating?
  {
    && c.sid in h.states && h.states[c.sid].requestedShow.Some?
    && h.states[c.sid].requestedShow.value.identity == c.identity
  }

  /** The load's view is the session's own, and its generation the active one. */
  predicate StillLoads(s: Session, viewId: nat, generationId: string) {
    ViewId(s) == Some(viewId) && s.active.Some? && s.active.value.identity.generationId == generationId
  }

  /** The network is denied and no view is left, attached or not; all else stays. */
  predicate GoesDark(s: Session, t: Session) {
    t.mode == DenyAll && t.view.None? && (s.view.Some? ==> !t.attached) &&
    t == s.(mode := DenyAll, view := None, attached := t.attached)
  }

  /**
   * A load that failed fails its activation, with the network denied and nothing left on show,
   * where its view and generation are still the session's; any other load has the activation go on.
   */
  lemma LoadSettles(h: Host, id: CallId, viewId: nat, generationId: string, outcome: Outcome)
    requires ActivatingAt(h, id, Loading(viewId, generationId))
    ensures var g, sid := Step(h, Resumed(id, outcome)), h.calls[id].sid;
            && id in g.calls && g.calls == h.calls[id := h.calls[id].(stage := g.calls[id].stage)]
            && sid in g.states && g.states == h.states[sid := g.states[sid]]
            && if outcome.Rejected? && StillLoads(h.states[sid], viewId, generationId) then
                 g.calls[id].stage == Returning(false) && GoesDark(h.states[sid], g.states[sid])
               else g.calls[id].stage == Loaded && g == h.(calls := g.calls)
  {
  }

  /** A reload goes the same way, and ends. */
  lemma ReloadSettles(h: Host, id: CallId, outcome: Outcome)
    requires id in h.calls && h.calls[id].Reloading? && h.calls[id].sid in h.states
    ensures var g, c := Step(h, Resumed(id, outcome)), h.calls[id];
            && g.calls == h.calls - {id} && c.sid in g.states && g.states == h.states[c.sid := g.states[c.sid]]
            && if outcome.Rejected? && StillLoads(h.states[c.sid], c.viewId, c.generationId) then
                 GoesDark(h.states[c.sid], g.states[c.sid])
               else g == h.(calls := g.calls)
  {
  }

  /** Only its own stage, and its own session, change. */
  ghost predicate OnlyOwn(h: Host, g: Host, id: CallId)
    requires id in h.calls && h.calls[id].Activating? && h.calls[id].sid in h.states
  {
    var sid := h.calls[id].sid;
    && id in g.calls && g.calls[id].Activating? && g.calls == h.calls[id := h.calls[id].(stage := g.calls[id].stage)]
    && sid in g.states && g.states == h.states[sid := g.states[sid]]
    && g.sessions == h.sessions && g.rendererEpoch == h.rendererEpoch && g.openedLinks == h.openedLinks
  }

  /**
   * A resolved route is gone on with if it is safe to load, its lease's fence stands and it is still asked
   * for; it is released if either is not so; a resolution that failed, or is not safe to load, fails.
   */
  lemma ResolveSettles(h: Host, id: CallId, outcome: Outcome)
    requires ActivatingAt(h, id, Resolving)
    ensures var g, c := Step(h, Resumed(id, outcome)), h.calls[id];
            var s, stands := h.states[c.sid], HasFence(h, c) && Wanted(h, c);
            && OnlyOwn(h, g, id)
            && if outcome.Resolved? && stands && outcome.safe then
                 && g.calls[id].stage == ClosingLease(Route(c.identity, outcome.origins, outcome.leased))
                 && g.states[c.sid] ==
                    s.(view := None, attached := if s.view.Some? then false else s.attached)
               else if outcome.Resolved? && !stands then g.calls[id].stage == Releasing && g.states == h.states
               else g.calls[id].stage == Returning(false) && g.states == h.states
  {
  }

  lemma ReleaseSettles(h: Host, id: CallId, outcome: Outcome)
    requires ActivatingAt(h, id, Releasing)
    ensures var g := Step(h, Resumed(id, outcome));
            && OnlyOwn(h, g, id) && g.states == h.states
            && g.calls[id].stage == Returning(!outcome.Rejected? && HasFence(h, h.calls[id]))
  {
  }

  /** The route is opened: with a view, unless none can be created. */
  predicate Opens(h: Host, g: Host, id: CallId, route: Route, viewless: bool)
    requires id in h.calls && h.calls[id].Activating? && h.calls[id].sid in h.states
    requires id in g.calls && g.calls[id].Activating? && h.calls[id].sid in g.states
  {
    var s, t := h.states[h.calls[id].sid], g.states[h.calls[id].sid];
    && t == s.(mode := AllowRoutes, active := Some(route), lastOrigins := route.origins, view := t.view)
    && if viewless then t.view == s.view && g.calls[id].stage == Returning(false)
       else
         && t.view == Some(View(h.next, false))
         && g.calls[id].stage == Loading(h.next, route.identity.generationId)
  }

  /** The old lease is closed first, then a leased route's proxy is set, then the route is opened. */
  lemma ClosingSettles(h: Host, id: CallId, outcome: Outcome, route: Route)
    requires ActivatingAt(h, id, ClosingLease(route))
    ensures var g := Step(h, Resumed(id, outcome));
            && OnlyOwn(h, g, id)
            && if outcome.Rejected? then g.calls[id].stage == Returning(false) && g.states == h.states
               else if route.leased then g.calls[id].stage == SettingProxy(route) && g.states == h.states
               else Opens(h, g, id, route, outcome.Viewless?)
  {
  }

  lemma ProxySettles(h: Host, id: CallId, outcome: Outcome, route: Route)
    requires ActivatingAt(h, id, SettingProxy(route))
    ensures var g := Step(h, Resumed(id, outcome));
            && OnlyOwn(h, g, id)
            && if outcome.Rejected? then g.calls[id].stage == Returning(false) && g.states == h.states
               else Opens(h, g, id, route, outcome.Viewless?)
  {
  }

  /** What is requested would be shown: there is a window, and its bounds show something in it. */
  predicate Visible(h: Host, sid: SessionId) {
    && sid in h.states && h.states[sid].requestedShow.Some? && h.window.Some? && !h.window.value.destroyed
    && var w := h.window.value;
       NormalizeBounds(h.states[sid].requestedShow.value.bounds, w.zoom, w.width, w.height).Some?
  }

  lemma PlaceLeaves(h: Host, sid: SessionId)
    requires sid in h.states && h.states[sid].requestedShow.Some? && LiveView(h.states[sid])
    ensures var s, g := h.states[sid], PlaceAndAttach(h, sid, h.states[sid].requestedShow.value.bounds);
            && sid in g.states && g.states == h.states[sid := g.states[sid]] && g.calls == h.calls
            && g.sessions == h.sessions && g.rendererEpoch == h.rendererEpoch && g.openedLinks == h.openedLinks
            && if Visible(h, sid) then g.states[sid] == s.(attached := true)
               else LeavesNothing(s, g.states[sid])
  {
  }

  /** Nothing is requested or on show, and the network is denied. */
  predicate LeavesNothing(s: Session, t: Session) {
    && t.requestedShow.None? && t.mode == DenyAll && t.view.None? && !t.attached
    && t == s.(requestedShow := None, mode := DenyAll, view := None, attached := false, pendingLinks := t.pendingLinks)
  }

  lemma DropLeaves(h: Host, sid: SessionId)
    requires sid in h.states
    ensures var g := DropView(h, sid);
            && sid in g.states && g.states == h.states[sid := g.states[sid]] && g.calls == h.calls
            && g.sessions == h.sessions && g.rendererEpoch == h.rendererEpoch && g.openedLinks == h.openedLinks
            && GoesDark(h.states[sid], g.states[sid])
  {
  }

  /**
   * The view is attached where the fence stands, the identity is still asked for, and the view is live
   * and would show something; a lease without its fence fails, and else nothing is left on show.
   */
  ghost predicate FinishesSo(h: Host, g: Host, id: CallId)
    requires id in h.calls && h.calls[id].Activating? && h.calls[id].sid in h.states
  {
    var c, s := h.calls[id], h.states[h.calls[id].sid];
    && OnlyOwn(h, g, id) && g.calls[id].stage == Returning(HasFence(h, c))
    && var t := g.states[c.sid];
       if !HasFence(h, c) then t == s
       else if !Wanted(h, c) || s.view.None? || s.view.value.destroyed then GoesDark(s, t)
       else if Visible(h, c.sid) then t == s.(attached := true)
       else LeavesNothing(s, t)
  }

  lemma FinishFails(h: Host, id: CallId)
    requires ActivatingAt(h, id, Loaded) && !HasFence(h, h.calls[id])
    ensures FinishesSo(h, FinishActivation(h, id), id)
  {
  }

  lemma FinishDrops(h: Host, id: CallId)
    requires ActivatingAt(h, id, Loaded) && HasFence(h, h.calls[id])
    requires !Wanted(h, h.calls[id]) || !LiveView(h.states[h.calls[id].sid])
    ensures FinishesSo(h, FinishActivation(h, id), id)
  {
    DropLeaves(h, h.calls[id].sid);
  }

  lemma FinishPlaces(h: Host, id: CallId)
    requires ActivatingAt(h, id, Loaded) && HasFence(h, h.calls[id])
    requires Wanted(h, h.calls[id]) && LiveView(h.states[h.calls[id].sid])
    ensures FinishesSo(h, FinishActivation(h, id), id)
  {
    PlaceLeaves(h, h.calls[id].sid);
  }

  /** The last step of an activation. */
  lemma FinishSettles(h: Host, g: Host, id: CallId, outcome: Outcome)
    requires ActivatingAt(h, id, Loaded) && g == Step(h, Resumed(id, outcome))
    ensures FinishesSo(h, g, id)
  {
    assert g == FinishActivation(h, id);
    if !HasFence(h, h.calls[id]) {
      FinishFails(h, id);
    } else if !Wanted(h, h.calls[id]) || !LiveView(h.states[h.calls[id].sid]) {
      FinishDrops(h, id);
    } else {
      FinishPlaces(h, id);
    }
  }

  // ----- How an activation came to each stage -----

  /** The step took the activation `id` from one stage to the other. */
  predicate Moves(h: Host, g: Host, id: CallId, from: Stage, to: Stage) {
    && ActivatingAt(h, id, from) && id in g.calls && g.calls[id].Activating? && g.calls[id].stage == to
    && SameWork(h.calls[id], g.calls[id]) && g.calls[id].sid in g.states
  }

  /** A call comes to a stage past resolving only from an activation that is not at its end. */
  lemma OnlyStages(h: Host, id: CallId, outcome: Outcome, stage: Stage)
    requires CanHappen(h, Resumed(id, outcome)) && id < h.next
    requires ActivatingAt(Step(h, Resumed(id, outcome)), id, stage) && !stage.Resolving? && !stage.Returning?
    ensures h.calls[id].Activating? && !h.calls[id].stage.Loaded? && !h.calls[id].stage.Returning?
    ensures Step(h, Resumed(id, outcome)) == ResumeActivation(h, id, outcome)
  {
    if h.calls[id].Activating? {
      if h.calls[id].stage.Loaded? { FinishedCall(h, id); }
    } else if h.calls[id].ShowAfterCommit? {
      ResumeShowGoes(h, id);
    } else if h.calls[id].Beginning? {
      BeginningsStart(h, id, outcome);
    } else {
      OthersStart(h, id, outcome);
    }
  }

  lemma BeginningsStart(h: Host, id: CallId, outcome: Outcome)
    requires id in h.calls && h.calls[id].Beginning? && h.calls[id].sid in h.states
    ensures var g := ResumeBegin(h, id, outcome); id in g.calls ==> !g.calls[id].Activating?
  {
  }

  lemma OthersStart(h: Host, id: CallId, outcome: Outcome)
    requires CanHappen(h, Resumed(id, outcome)) &&
             (h.calls[id].Leased? || h.calls[id].Reloading? || h.calls[id].Closing?)
    ensures id in Step(h, Resumed(id, outcome)).calls ==> Starting(Step(h, Resumed(id, outcome)).calls[id])
  {
  }

  /** A route was resolved, safe to load, for a lease whose fence stands and whose identity is asked for. */
  lemma ToClosing(h: Host, id: CallId, outcome: Outcome, route: Route)
    requires id in h.calls && h.calls[id].Activating? && h.calls[id].sid in h.states
    requires !h.calls[id].stage.Loaded? && !h.calls[id].stage.Returning?
    requires ActivatingAt(ResumeActivation(h, id, outcome), id, ClosingLease(route))
    ensures Moves(h, ResumeActivation(h, id, outcome), id, Resolving, ClosingLease(route))
    ensures outcome == Resolved(route.origins, route.leased, true) && route.identity == h.calls[id].identity
    ensures HasFence(h, h.calls[id]) && Wanted(h, h.calls[id])
  {
  }

  /** The old lease has been closed, and the route comes with one of its own. */
  lemma ToProxy(h: Host, id: CallId, outcome: Outcome, route: Route)
    requires id in h.calls && h.calls[id].Activating? && h.calls[id].sid in h.states
    requires !h.calls[id].stage.Loaded? && !h.calls[id].stage.Returning?
    requires ActivatingAt(ResumeActivation(h, id, outcome), id, SettingProxy(route))
    ensures Moves(h, ResumeActivation(h, id, outcome), id, ClosingLease(route), SettingProxy(route))
    ensures route.leased && !outcome.Rejected?
  {
  }

  /** The route is the active one with the network open to it, and its view is new. */
  predicate OpenTo(s: Session, route: Route, viewId: nat) {
    s.mode == AllowRoutes && s.active == Some(route) && s.lastOrigins == route.origins &&
    s.view == Some(View(viewId, false))
  }

  /** The old lease has been closed and a leased route's proxy set. */
  lemma ToLoading(h: Host, id: CallId, outcome: Outcome, viewId: nat, generationId: string) returns (route: Route)
    requires id in h.calls && h.calls[id].Activating? && h.calls[id].sid in h.states
    requires !h.calls[id].stage.Loaded? && !h.calls[id].stage.Returning?
    requires ActivatingAt(ResumeActivation(h, id, outcome), id, Loading(viewId, generationId))
    ensures var g, to := ResumeActivation(h, id, outcome), Loading(viewId, generationId);
            Moves(h, g, id, SettingProxy(route), to) || (Moves(h, g, id, ClosingLease(route), to) && !route.leased)
    ensures viewId == h.next && generationId == route.identity.generationId
    ensures !outcome.Rejected? && !outcome.Viewless?
    ensures OpenTo(ResumeActivation(h, id, outcome).states[h.calls[id].sid], route, viewId)
  {
    route := h.calls[id].stage.route;
  }

  /** The load has settled; it did not fail, or what failed was replaced. */
  lemma ToLoaded(h: Host, id: CallId, outcome: Outcome) returns (viewId: nat, generationId: string)
    requires id in h.calls && h.calls[id].Activating? && h.calls[id].sid in h.states
    requires !h.calls[id].stage.Loaded? && !h.calls[id].stage.Returning?
    requires ActivatingAt(ResumeActivation(h, id, outcome), id, Loaded)
    ensures Moves(h, ResumeActivation(h, id, outcome), id, Loading(viewId, generationId), Loaded)
    ensures outcome.Rejected? ==> !StillLoads(h.states[h.calls[id].sid], viewId, generationId)
  {
    viewId, generationId := h.calls[id].stage.viewId, h.calls[id].stage.generationId;
  }

  // ----- What lies behind an activation in a run -----

  /** In step `k` the activation's own await settled so, and took it from one stage to the other. */
  ghost predicate Settles(events: seq<Event>, hosts: seq<Host>, k: nat, id: CallId, outcome: Outcome, from: Stage,
                          to: Stage) {
    k < |events| && k + 1 < |hosts| && events[k] == Resumed(id, outcome) && Moves(hosts[k], hosts[k + 1], id, from, to)
  }

  /** An activation past resolving came to its stage by an await of its own. */
  lemma CameByAwait(events: seq<Event>, hosts: seq<Host>, j: nat, id: CallId, stage: Stage)
    returns (k: nat, outcome: Outcome)
    requires Run(events, hosts) && j < |hosts| && ActivatingAt(hosts[j], id, stage)
    requires !stage.Resolving? && !stage.Returning?
    ensures k < j && events[k] == Resumed(id, outcome) && CanHappen(hosts[k], events[k]) && Inv(hosts[k])
    ensures hosts[k].calls[id].Activating? && !hosts[k].calls[id].stage.Loaded? && !hosts[k].calls[id].stage.Returning?
    ensures hosts[k + 1] == ResumeActivation(hosts[k], id, outcome) && ActivatingAt(hosts[k + 1], id, stage)
    ensures hosts[k + 1].calls[id] == hosts[j].calls[id]
  {
    k := CameThere(events, hosts, j, id);
    RunKeeps(events, hosts, k);
    RunKeeps(events, hosts, k + 1);
    outcome := events[k].outcome;
    OnlyStages(hosts[k], id, outcome, stage);
  }

  lemma LoadedBehind(events: seq<Event>, hosts: seq<Host>, j: nat, id: CallId)
    returns (k: nat, outcome: Outcome, viewId: nat, generationId: string)
    requires Run(events, hosts) && j < |hosts| && ActivatingAt(hosts[j], id, Loaded)
    ensures k < j && Settles(events, hosts, k, id, outcome, Loading(viewId, generationId), Loaded)
    ensures hosts[k + 1].calls[id] == hosts[j].calls[id]
    ensures outcome.Rejected? ==> !StillLoads(hosts[k].states[hosts[k].calls[id].sid], viewId, generationId)
  {
    k, outcome := CameByAwait(events, hosts, j, id, Loaded);
    viewId, generationId := ToLoaded(hosts[k], id, outcome);
  }

  lemma LoadingBehind(events: seq<Event>, hosts: seq<Host>, j: nat, id: CallId, viewId: nat, generationId: string)
    returns (k: nat, outcome: Outcome, route: Route)
    requires Run(events, hosts) && j < |hosts| && ActivatingAt(hosts[j], id, Loading(viewId, generationId))
    ensures k < j && !outcome.Rejected? && !outcome.Viewless?
    ensures var to := Loading(viewId, generationId);
            || Settles(events, hosts, k, id, outcome, SettingProxy(route), to)
            || (Settles(events, hosts, k, id, outcome, ClosingLease(route), to) && !route.leased)
    ensures viewId == hosts[k].next && generationId == route.identity.generationId
    ensures OpenTo(hosts[k + 1].states[hosts[k].calls[id].sid], route, viewId)
  {
    k, outcome := CameByAwait(events, hosts, j, id, Loading(viewId, generationId));
    route := ToLoading(hosts[k], id, outcome, viewId, generationId);
  }

  lemma ProxyBehind(events: seq<Event>, hosts: seq<Host>, j: nat, id: CallId, route: Route)
    returns (k: nat, outcome: Outcome)
    requires Run(events, hosts) && j < |hosts| && ActivatingAt(hosts[j], id, SettingProxy(route))
    ensures k < j && !outcome.Rejected? && route.leased
    ensures Settles(events, hosts, k, id, outcome, ClosingLease(route), SettingProxy(route))
  {
    k, outcome := CameByAwait(events, hosts, j, id, SettingProxy(route));
    ToProxy(hosts[k], id, outcome, route);
  }

  lemma ClosingBehind(events: seq<Event>, hosts: seq<Host>, j: nat, id: CallId, route: Route) returns (k: nat)
    requires Run(events, hosts) && j < |hosts| && ActivatingAt(hosts[j], id, ClosingLease(route))
    ensures k < j && Settles(events, hosts, k, id, Resolved(route.origins, route.leased, true), Resolving,
                             ClosingLease(route))
    ensures route.identity == hosts[k].calls[id].identity && HasFence(hosts[k], hosts[k].calls[id])
    ensures Wanted(hosts[k], hosts[k].calls[id])
  {
    var outcome;
    k, outcome := CameByAwait(events, hosts, j, id, ClosingLease(route));
    ToClosing(hosts[k], id, outcome, route);
  }

  /** The awaits an activation has behind it once its view has loaded, with the steps in which they settled. */
  datatype Past = Past(route: Route, viewId: nat, resolvedAt: nat, closedAt: nat, closing: Outcome,
                       openedAt: nat, opening: Outcome, loadedAt: nat, load: Outcome)

  /** Its route was resolved, safe to load, while its lease had the fence and its identity was asked for. */
  ghost predicate WasResolved(events: seq<Event>, hosts: seq<Host>, id: CallId, past: Past) {
    && Settles(events, hosts, past.resolvedAt, id, Resolved(past.route.origins, past.route.leased, true), Resolving,
               ClosingLease(past.route))
    && past.route.identity == hosts[past.resolvedAt].calls[id].identity
    && HasFence(hosts[past.resolvedAt], hosts[past.resolvedAt].calls[id])
    && Wanted(hosts[past.resolvedAt], hosts[past.resolvedAt].calls[id])
  }

  /** The old lease was closed, and a leased route's proxy set, before the route was opened in a new view. */
  ghost predicate WasOpened(events: seq<Event>, hosts: seq<Host>, id: CallId, past: Past) {
    var route, loading := past.route, Loading(past.viewId, past.route.identity.generationId);
    && !past.closing.Rejected? && !past.opening.Rejected? && !past.opening.Viewless?
    && (if route.leased then
          && past.closedAt < past.openedAt
          && Settles(events, hosts, past.closedAt, id, past.closing, ClosingLease(route), SettingProxy(route))
          && Settles(events, hosts, past.openedAt, id, past.opening, SettingProxy(route), loading)
        else
          past.closedAt == past.openedAt &&
          Settles(events, hosts, past.openedAt, id, past.opening, ClosingLease(route), loading))
    && past.viewId == hosts[past.openedAt].next
    && OpenTo(hosts[past.openedAt + 1].states[hosts[past.openedAt].calls[id].sid], route, past.viewId)
  }

  /** Its view's load settled, and did not fail unless the view or its generation had been replaced by then. */
  ghost predicate WasLoaded(events: seq<Event>, hosts: seq<Host>, id: CallId, past: Past) {
    var generationId := past.route.identity.generationId;
    && Settles(events, hosts, past.loadedAt, id, past.load, Loading(past.viewId, generationId), Loaded)
    && (past.load.Rejected? ==>
          !StillLoads(hosts[past.loadedAt].states[hosts[past.loadedAt].calls[id].sid], past.viewId, generationId))
  }

  /** Every activation past loading was resolved, opened and loaded by its own awaits, in this order. */
  lemma LoadedHistory(events: seq<Event>, hosts: seq<Host>, j: nat, id: CallId) returns (past: Past)
    requires Run(events, hosts) && j < |hosts| && ActivatingAt(hosts[j], id, Loaded)
    ensures past.resolvedAt < past.closedAt <= past.openedAt < past.loadedAt < j
    ensures WasResolved(events, hosts, id, past) && WasOpened(events, hosts, id, past)
    ensures WasLoaded(events, hosts, id, past)
  {
    var loadedAt, load, viewId, generationId := LoadedBehind(events, hosts, j, id);
    var openedAt, opening, route := LoadingBehind(events, hosts, loadedAt, id, viewId, generationId);
    var closedAt, closing := openedAt, opening;
    if hosts[openedAt].calls[id].stage.SettingProxy? {
      closedAt, closing := ProxyBehind(events, hosts, openedAt, id, route);
    }
    var resolvedAt := ClosingBehind(events, hosts, closedAt, id, route);
    past := Past(route, viewId, resolvedAt, closedAt, closing, openedAt, opening, loadedAt, load);
  }

  /** So a lease attaches only what its own awaits resolved, opened and loaded. */
  lemma AttachedHistory(events: seq<Event>, hosts: seq<Host>, j: nat, sid: SessionId) returns (past: Past)
    requires Run(events, hosts) && j < |events| && LeaseAttaches(hosts[j], events[j], sid)
    ensures past.resolvedAt < past.closedAt <= past.openedAt < past.loadedAt < j
    ensures WasResolved(events, hosts, events[j].call, past) && WasOpened(events, hosts, events[j].call, past)
    ensures WasLoaded(events, hosts, events[j].call, past)
  {
    past := LoadedHistory(events, hosts, j, events[j].call);
  }

  // ----- A failed activation -----

  /** The call has gone, or is an activation about to return with an error. */
  predicate FailedOrGone(h: Host, id: CallId) {
    id < h.next && (id in h.calls ==> h.calls[id].Activating? && h.calls[id].stage == Returning(false))
  }

  lemma FailedStays(h: Host, e: Event, id: CallId)
    requires Inv(h) && CanHappen(h, e) && FailedOrGone(h, id)
    ensures FailedOrGone(Step(h, e), id)
  {
    StepStays(h, e);
  }

  lemma FailedOnce(events: seq<Event>, hosts: seq<Host>, k: nat, id: CallId)
    requires Run(events, hosts) && k < |events| && FailedOrGone(hosts[k], id)
    ensures FailedOrGone(hosts[k + 1], id)
  {
    RunKeeps(events, hosts, k);
    FailedStays(hosts[k], events[k], id);
  }

  ghost predicate FailedAt(hosts: seq<Host>, k: nat, id: CallId)
    requires k < |hosts|
  {
    FailedOrGone(hosts[k], id)
  }

  /** Each step between the two states carries it on. */
  ghost predicate StaysFailed(hosts: seq<Host>, i: nat, j: nat, id: CallId)
    requires j < |hosts|
  {
    forall k :: i <= k < j && FailedAt(hosts, k, id) ==> FailedAt(hosts, k + 1, id)
  }

  lemma {:induction false} FailedThrough(hosts: seq<Host>, i: nat, k: nat, j: nat, id: CallId)
    requires i <= k <= j < |hosts| && FailedAt(hosts, i, id) && StaysFailed(hosts, i, j, id)
    ensures FailedAt(hosts, k, id)
    decreases k
  {
    if i < k { FailedThrough(hosts, i, k - 1, j, id); }
  }

  lemma FailedForGood(events: seq<Event>, hosts: seq<Host>, i: nat, j: nat, id: CallId)
    requires Run(events, hosts) && i <= j < |hosts| && FailedOrGone(hosts[i], id)
    ensures FailedOrGone(hosts[j], id)
  {
    forall k | i <= k < j && FailedAt(hosts, k, id) ensures FailedAt(hosts, k + 1, id) {
      FailedOnce(events, hosts, k, id);
    }
    FailedThrough(hosts, i, j, j, id);
  }

  /**
   * A load that fails while its view and generation are still the session's leaves the network
   * denied and nothing on show, and its activation never comes to return normally.
   */
  lemma RejectedLoad(events: seq<Event>, hosts: seq<Host>, i: nat, j: nat, id: CallId, viewId: nat,
                     generationId: string)
    requires Run(events, hosts) && i < j < |hosts| && events[i] == Resumed(id, Rejected)
    requires ActivatingAt(hosts[i], id, Loading(viewId, generationId))
    requires StillLoads(hosts[i].states[hosts[i].calls[id].sid], viewId, generationId)
    ensures var sid := hosts[i].calls[id].sid;
            sid in hosts[i + 1].states && GoesDark(hosts[i].states[sid], hosts[i + 1].states[sid])
    ensures FailedOrGone(hosts[j], id)
  {
    RunKeeps(events, hosts, i);
    LoadSettles(hosts[i], id, viewId, generationId, Rejected);
    RunFrame(events, hosts, i, i + 1);
    FailedForGood(events, hosts, i + 1, j, id);
  }
}
