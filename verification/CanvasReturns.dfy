/**
 * What a lease that returns normally with its session attached has behind it: with no route
 * made active but its own, its own view has loaded, and did not fail to.
 */
module CanvasReturns {
  import opened Wrappers
  import opened DesignCanvas
  import opened CanvasSafety
  import opened CanvasFrames
  import opened CanvasFences
  import opened CanvasLeases
  import opened CanvasSuperseded
  import opened CanvasCalls

  /** The route is the active one, and the session has this view or none. */
  predicate Under(h: Host, sid: SessionId, route: Route, viewId: nat) {
    sid in h.states && h.states[sid].active == Some(route) && ViewId(h.states[sid]) in {None, Some(viewId)}
  }

  predicate NoView(h: Host, sid: SessionId) {
    sid in h.states && h.states[sid].view.None?
  }

  /** The step leaves the active route, and at most drops the view. */
  predicate OnlyDrops(h: Host, g: Host, sid: SessionId) {
    sid in h.states ==>
      && sid in g.states && g.states[sid].active == h.states[sid].active
      && ViewId(g.states[sid]) in {None, ViewId(h.states[sid])}
  }

  lemma StageDrops(h: Host, id: CallId, outcome: Outcome, sid: SessionId)
    requires id in h.calls && h.calls[id].Activating? && h.calls[id].sid == sid && sid in h.states
    requires InstallOf(h, Resumed(id, outcome), sid).None?
    requires !h.calls[id].stage.Loaded? && !h.calls[id].stage.Returning?
    ensures OnlyDrops(h, ResumeActivation(h, id, outcome), sid)
  {
  }

  lemma ActivationDrops(h: Host, id: CallId, outcome: Outcome, sid: SessionId)
    requires id in h.calls && h.calls[id].Activating? && h.calls[id].sid == sid && sid in h.states
    requires InstallOf(h, Resumed(id, outcome), sid).None?
    ensures OnlyDrops(h, ResumeActivation(h, id, outcome), sid)
  {
    if h.calls[id].stage.Loaded? {
      FinishedSession(h, id);
    } else if !h.calls[id].stage.Returning? {
      StageDrops(h, id, outcome, sid);
    }
  }

  lemma OwnDrops(h: Host, g: Host, e: Event, sid: SessionId, token: Token)
    requires CanHappen(h, e) && g == Step(h, e) && Own(h, e, sid, token) && sid in h.states
    requires InstallOf(h, e, sid).None? && FenceOf(g, sid) == Some(token)
    ensures OnlyDrops(h, g, sid)
  {
    if e.Resumed? && h.calls[e.call].Activating? { ActivationDrops(h, e.call, e.outcome, sid); }
  }

  /** While the fence stands, no other step sets a view or makes a route active. */
  lemma StepDrops(h: Host, g: Host, e: Event, sid: SessionId, token: Token)
    requires Inv(h) && CanHappen(h, e) && g == Step(h, e) && token < h.next && sid in h.states
    requires InstallOf(h, e, sid).None? && FenceOf(g, sid) == Some(token)
    ensures OnlyDrops(h, g, sid)
  {
    if Own(h, e, sid, token) { OwnDrops(h, g, e, sid, token); } else { OtherStepAside(h, e, sid, token); }
  }

  // ----- Over a run -----

  /** The lease stands from `i` to `j`, and no call but `id` makes a route of its session active in between. */
  ghost predicate Alone(events: seq<Event>, hosts: seq<Host>, i: nat, j: nat, id: CallId, sid: SessionId,
                        token: Token) {
    && Standing(events, hosts, i, j, id, sid, token)
    && forall k :: i < k < j ==> OthersInstallNone(hosts[k], events[k], id, sid)
  }

  /** Once it has made its own route active, it makes none again. */
  lemma InstallsOnce(events: seq<Event>, hosts: seq<Host>, i: nat, k: nat, m: nat, j: nat, id: CallId, sid: SessionId,
                     token: Token)
    requires Alone(events, hosts, i, j, id, sid, token) && i < k <= m < j
    requires id in hosts[k].calls && PastInstall(hosts[k].calls[id])
    ensures InstallOf(hosts[m], events[m], sid).None?
  {
    RunKeeps(events, hosts, k);
    RunGoes(events, hosts, k, m);
    assert OthersInstallNone(hosts[m], events[m], id, sid);
  }

  lemma DropsOnly(events: seq<Event>, hosts: seq<Host>, i: nat, m: nat, j: nat, id: CallId, sid: SessionId,
                  token: Token)
    requires Alone(events, hosts, i, j, id, sid, token) && i < m < j && InstallOf(hosts[m], events[m], sid).None?
    ensures OnlyDrops(hosts[m], hosts[m + 1], sid)
  {
    Before(events, hosts, i, m, j, id, sid, token);
    Before(events, hosts, i, m + 1, j, id, sid, token);
    StepDrops(hosts[m], hosts[m + 1], events[m], sid, token);
  }

  ghost predicate DropsAt(hosts: seq<Host>, m: nat, sid: SessionId)
    requires m + 1 < |hosts|
  {
    OnlyDrops(hosts[m], hosts[m + 1], sid)
  }

  /** Each step between the two states at most drops the view. */
  ghost predicate DropsThrough(hosts: seq<Host>, k: nat, j: nat, sid: SessionId)
    requires j < |hosts|
  {
    forall m :: k <= m < j ==> DropsAt(hosts, m, sid)
  }

  lemma {:induction false} UnderThrough(hosts: seq<Host>, k: nat, m: nat, j: nat, sid: SessionId, route: Route,
                                        viewId: nat)
    requires k <= m <= j < |hosts| && DropsThrough(hosts, k, j, sid) && Under(hosts[k], sid, route, viewId)
    ensures Under(hosts[m], sid, route, viewId)
    decreases m
  {
    if k < m {
      UnderThrough(hosts, k, m - 1, j, sid, route, viewId);
      assert DropsAt(hosts, m - 1, sid);
    }
  }

  lemma {:induction false} NoViewThrough(hosts: seq<Host>, k: nat, m: nat, j: nat, sid: SessionId)
    requires k <= m <= j < |hosts| && DropsThrough(hosts, k, j, sid) && NoView(hosts[k], sid)
    ensures NoView(hosts[m], sid)
    decreases m
  {
    if k < m {
      NoViewThrough(hosts, k, m - 1, j, sid);
      assert DropsAt(hosts, m - 1, sid);
    }
  }

  lemma DropsAfter(events: seq<Event>, hosts: seq<Host>, i: nat, k: nat, j: nat, id: CallId, sid: SessionId,
                   token: Token)
    requires Alone(events, hosts, i, j, id, sid, token) && i < k <= j
    requires id in hosts[k].calls && PastInstall(hosts[k].calls[id])
    ensures DropsThrough(hosts, k, j, sid)
  {
    forall m | k <= m < j ensures DropsAt(hosts, m, sid) {
      InstallsOnce(events, hosts, i, k, m, j, id, sid, token);
      DropsOnly(events, hosts, i, m, j, id, sid, token);
    }
  }

  /** The lease's call came into being after its fence was taken. */
  lemma CallIsLater(events: seq<Event>, hosts: seq<Host>, i: nat, k: nat, j: nat, id: CallId, sid: SessionId,
                    token: Token)
    requires Standing(events, hosts, i, j, id, sid, token) && k < j && id in hosts[k].calls && id in hosts[j].calls
    requires hosts[j].calls[id].Activating?
    ensures i < k
  {
    RunKeeps(events, hosts, j);
    RunKeeps(events, hosts, k);
    assert TokenOk(id, hosts[j].calls[id]);
    if k <= i { RunFrame(events, hosts, k, i); }
  }

  /** So its session has no view by the end if its load has failed. */
  lemma FailedHasNoView(events: seq<Event>, hosts: seq<Host>, i: nat, j: nat, id: CallId, sid: SessionId, token: Token,
                        past: Past)
    requires Alone(events, hosts, i, j, id, sid, token) && ActivatingAt(hosts[j], id, Loaded)
    requires i < past.openedAt < past.loadedAt < j
    requires WasOpened(events, hosts, id, past) && WasLoaded(events, hosts, id, past) && past.load.Rejected?
    requires hosts[past.openedAt].calls[id].sid == sid && hosts[past.loadedAt].calls[id].sid == sid
    ensures NoView(hosts[j], sid)
  {
    var opening, loading := past.openedAt + 1, past.loadedAt;
    DropsAfter(events, hosts, i, opening, j, id, sid, token);
    UnderThrough(hosts, opening, loading, j, sid, past.route, past.viewId);
    NoViewThrough(hosts, loading, j, j, sid);
  }

  /** With no route made active but its own, a normal return that leaves the session attached is its last step's. */
  lemma AttachedFinishes(h: Host, g: Host, e: Event, id: CallId, sid: SessionId, token: Token, last: Option<Identity>)
    requires Inv(h) && CanHappen(h, e) && g == Step(h, e) && Own(h, e, sid, token) && sid in h.states
    requires Returns(h, g, id, sid, token) && LeaseInv(h, sid, token, last) && OnlyIts(h, id, last)
    requires sid in g.states && g.states[sid].attached
    ensures Finishes(h, e) && e.call == id
  {
    if !Finishes(h, e) {
      StoppingShort(h, e, id, sid, token);
      OpenForView(h, if e.Resumed? then e.call else e.lease, sid, token, last);
      assert false;
    }
  }

  lemma NoViewNotAttached(h: Host, g: Host, id: CallId, outcome: Outcome)
    requires Inv(h) && ActivatingAt(h, id, Loaded) && g == Step(h, Resumed(id, outcome)) && NoView(h, h.calls[id].sid)
    ensures h.calls[id].sid in g.states && !g.states[h.calls[id].sid].attached
  {
    FinishSettles(h, g, id, outcome);
    assert SessionOk(h.states[h.calls[id].sid]);
  }

  /** An activation works for the same session and lease all along. */
  lemma SameAllAlong(events: seq<Event>, hosts: seq<Host>, k: nat, j: nat, id: CallId)
    requires Run(events, hosts) && k <= j < |hosts| && id in hosts[k].calls && id in hosts[j].calls
    requires hosts[k].calls[id].Activating? && hosts[j].calls[id].Activating?
    ensures SameWork(hosts[k].calls[id], hosts[j].calls[id])
  {
    RunKeeps(events, hosts, k);
    RunGoes(events, hosts, k, j);
  }

  lemma NotRejected(events: seq<Event>, hosts: seq<Host>, i: nat, j: nat, id: CallId, sid: SessionId, token: Token,
                    past: Past)
    requires Alone(events, hosts, i, j, id, sid, token) && ActivatingAt(hosts[j], id, Loaded)
    requires past.openedAt < past.loadedAt < j && hosts[j].calls[id].sid == sid
    requires WasOpened(events, hosts, id, past) && WasLoaded(events, hosts, id, past) && !NoView(hosts[j], sid)
    ensures !past.load.Rejected?
  {
    SameAllAlong(events, hosts, past.openedAt, j, id);
    SameAllAlong(events, hosts, past.loadedAt, j, id);
    CallIsLater(events, hosts, i, past.openedAt, j, id, sid, token);
    if past.load.Rejected? { FailedHasNoView(events, hosts, i, j, id, sid, token, past); }
  }

  /**
   * A lease during which no call but the returning one makes a route of its session active: it is well
   * shown when it returns normally, and if the session is then attached, its route was resolved, opened and
   * loaded by the call's own awaits, in this order, and the load did not fail.
   */
  lemma AttachedLoaded(events: seq<Event>, hosts: seq<Host>, i: nat, j: nat, id: CallId, sid: SessionId, token: Token)
    returns (past: Past)
    requires Run(events, hosts) && i < j < |events| && Takes(hosts[i], hosts[i + 1], sid, token)
    requires Own(hosts[j], events[j], sid, token) && Returns(hosts[j], hosts[j + 1], id, sid, token)
    requires forall k :: i < k < j ==> OthersInstallNone(hosts[k], events[k], id, sid)
    requires sid in hosts[j + 1].states && hosts[j + 1].states[sid].attached
    ensures WellShownIn(hosts[j + 1], sid)
    ensures past.resolvedAt < past.closedAt <= past.openedAt < past.loadedAt < j
    ensures WasResolved(events, hosts, id, past) && WasOpened(events, hosts, id, past)
    ensures WasLoaded(events, hosts, id, past) && !past.load.Rejected?
  {
    RunKeeps(events, hosts, j);
    RunHolds(events, hosts, i, j, sid, token);
    ReturnStands(events, hosts, i, j, id, sid, token);
    OnlyItsRun(events, hosts, i, j, id, sid, token);
    LeaseReturnsWell(events, hosts, i, j, id, sid, token);
    AttachedFinishes(hosts[j], hosts[j + 1], events[j], id, sid, token, LastInstall(events, hosts, i, j, sid));
    past := LoadedHistory(events, hosts, j, id);
    if NoView(hosts[j], sid) { NoViewNotAttached(hosts[j], hosts[j + 1], id, events[j].outcome); }
    NotRejected(events, hosts, i, j, id, sid, token, past);
  }
}
