/**
 * A cutover that nothing disturbs: from its first await to its normal return, with its own
 * route active, its view loaded and attached, and its fence released.
 */
module CanvasCommits {
  import opened Wrappers
  import opened CanvasBounds
  import opened DesignCanvas
  import opened CanvasCalls

  /** The activation `c` stands at this stage, with its fence, its identity asked for, and something to show. */
  predicate Stands(h: Host, id: CallId, c: Call, stage: Stage)
    requires c.Activating?
  {
    id in h.calls && h.calls[id] == c.(stage := stage) && HasFence(h, c) && Wanted(h, c) && Visible(h, c.sid)
  }

  /** A new call drives the lease to this identity, as far as its fence and what is asked for let it. */
  predicate Drives(h: Host, g: Host, lease: Call, identity: Identity)
    requires lease.Leased?
  {
    && h.next in g.calls && g == h.(calls := h.calls[h.next := g.calls[h.next]], next := h.next + 1)
    && g.calls[h.next].Activating?
    && g.calls[h.next] == Activating(lease.sid, lease.token, identity, lease.byShow, g.calls[h.next].stage)
    && (g.calls[h.next].stage == Returning(false) <==> !HasFence(h, g.calls[h.next]))
    && (g.calls[h.next].stage == Resolving <==>
          HasFence(h, g.calls[h.next]) && Wanted(h, g.calls[h.next]))
    && (g.calls[h.next].stage == Returning(true) <==>
          HasFence(h, g.calls[h.next]) && !Wanted(h, g.calls[h.next]))
  }

  /** A commit drives its lease to the candidate. */
  lemma CommitDrives(h: Host, g: Host, lease: CallId)
    requires CanHappen(h, CommitCalled(lease)) && g == Step(h, CommitCalled(lease))
    ensures Drives(h, g, h.calls[lease], h.calls[lease].candidate)
  {
  }

  lemma ResolvesOn(h: Host, id: CallId, c: Call, route: Route)
    requires c.Activating? && Stands(h, id, c, Resolving) && route.identity == c.identity
    ensures Stands(Step(h, Resumed(id, Resolved(route.origins, route.leased, true))), id, c, ClosingLease(route))
  {
  }

  lemma ClosesOn(h: Host, id: CallId, c: Call, route: Route)
    requires c.Activating? && Stands(h, id, c, ClosingLease(route))
    ensures var g := Step(h, Resumed(id, Settled));
            if route.leased then Stands(g, id, c, SettingProxy(route))
            else
              && Stands(g, id, c, Loading(h.next, route.identity.generationId))
              && OpenTo(g.states[c.sid], route, h.next)
  {
  }

  lemma OpensOn(h: Host, id: CallId, c: Call, route: Route)
    requires c.Activating? && Stands(h, id, c, SettingProxy(route))
    ensures var g := Step(h, Resumed(id, Settled));
            && Stands(g, id, c, Loading(h.next, route.identity.generationId))
            && OpenTo(g.states[c.sid], route, h.next)
  {
  }

  lemma LoadsOn(h: Host, id: CallId, c: Call, route: Route, viewId: nat, generationId: string)
    requires c.Activating? && Stands(h, id, c, Loading(viewId, generationId)) && OpenTo(h.states[c.sid], route, viewId)
    ensures var g := Step(h, Resumed(id, Settled));
            Stands(g, id, c, Loaded) && OpenTo(g.states[c.sid], route, viewId)
  {
  }

  lemma AttachesOn(h: Host, id: CallId, c: Call, route: Route, viewId: nat)
    requires c.Activating? && Stands(h, id, c, Loaded) && OpenTo(h.states[c.sid], route, viewId)
    ensures var g := Step(h, Resumed(id, Settled));
            && Stands(g, id, c, Returning(true)) && OpenTo(g.states[c.sid], route, viewId) && g.states[c.sid].attached
  {
  }

  lemma ReleasesOn(h: Host, id: CallId, c: Call, route: Route, viewId: nat)
    requires c.Activating? && Stands(h, id, c, Returning(true)) && OpenTo(h.states[c.sid], route, viewId)
    ensures var g := Step(h, Resumed(id, Settled));
            && c.sid in g.states && g.states == h.states[c.sid := h.states[c.sid].(fenceToken := None)]
            && g.window == h.window
            && if c.byShow then id in g.calls && g.calls[id] == ShowAfterCommit(c.sid) else g.calls == h.calls - {id}
  {
  }

  /** A stretch of a run from any state. */
  ghost predicate Stretch(h: Host, events: seq<Event>, hosts: seq<Host>) {
    && |hosts| == |events| + 1 && hosts[0] == h
    && forall i :: 0 <= i < |events| ==> CanHappen(hosts[i], events[i]) && hosts[i + 1] == Step(hosts[i], events[i])
  }

  lemma OneStep(h: Host, e: Event, g: Host)
    requires CanHappen(h, e) && g == Step(h, e)
    ensures Stretch(h, [e], [h, g])
  {
  }

  lemma Longer(h: Host, events: seq<Event>, hosts: seq<Host>, e: Event, g: Host)
    requires Stretch(h, events, hosts) && CanHappen(hosts[|events|], e) && g == Step(hosts[|events|], e)
    ensures Stretch(h, events + [e], hosts + [g])
  {
    var moreEvents, moreHosts := events + [e], hosts + [g];
    forall i | 0 <= i < |moreEvents|
      ensures CanHappen(moreHosts[i], moreEvents[i]) && moreHosts[i + 1] == Step(moreHosts[i], moreEvents[i])
    {
      if i < |events| {
        assert moreEvents[i] == events[i] && moreHosts[i] == hosts[i] && moreHosts[i + 1] == hosts[i + 1];
      }
    }
  }

  /** How its awaits settle: the route is resolved, safe to load, and nothing fails. */
  function Undisturbed(id: CallId, route: Route): seq<Event> {
    [Resumed(id, Resolved(route.origins, route.leased, true)), Resumed(id, Settled)] +
    (if route.leased then [Resumed(id, Settled)] else []) + [Resumed(id, Settled), Resumed(id, Settled)]
  }

  /** Up to its view's load, the route is opened in a new view. */
  lemma UndisturbedOpens(h: Host, id: CallId, c: Call, route: Route)
    returns (events: seq<Event>, hosts: seq<Host>, viewId: nat)
    requires c.Activating? && Stands(h, id, c, Resolving) && route.identity == c.identity
    ensures Stretch(h, events, hosts) && events == Undisturbed(id, route)[..if route.leased then 3 else 2]
    ensures var g := hosts[|events|];
            Stands(g, id, c, Loading(viewId, route.identity.generationId)) && OpenTo(g.states[c.sid], route, viewId)
  {
    var resolves := Resumed(id, Resolved(route.origins, route.leased, true));
    var h1 := Step(h, resolves);
    ResolvesOn(h, id, c, route);
    OneStep(h, resolves, h1);
    var h2 := Step(h1, Resumed(id, Settled));
    ClosesOn(h1, id, c, route);
    Longer(h, [resolves], [h, h1], Resumed(id, Settled), h2);
    events, hosts, viewId := [resolves] + [Resumed(id, Settled)], [h, h1] + [h2], h1.next;
    if route.leased {
      var h3 := Step(h2, Resumed(id, Settled));
      OpensOn(h2, id, c, route);
      Longer(h, events, hosts, Resumed(id, Settled), h3);
      events, hosts, viewId := events + [Resumed(id, Settled)], hosts + [h3], h2.next;
    }
  }

  /**
   * An activation whose awaits all settle, with its fence standing and its identity asked for, returns
   * normally: its route is the active one with the network open to it, in a view that is attached.
   */
  lemma UndisturbedReturns(h: Host, id: CallId, c: Call, route: Route)
    returns (events: seq<Event>, hosts: seq<Host>, viewId: nat)
    requires c.Activating? && Stands(h, id, c, Resolving) && route.identity == c.identity
    ensures Stretch(h, events, hosts) && events == Undisturbed(id, route)
    ensures var g := hosts[|events|];
            Stands(g, id, c, Returning(true)) && OpenTo(g.states[c.sid], route, viewId) && g.states[c.sid].attached
  {
    events, hosts, viewId := UndisturbedOpens(h, id, c, route);
    var loading := hosts[|events|];
    var loaded := Step(loading, Resumed(id, Settled));
    LoadsOn(loading, id, c, route, viewId, route.identity.generationId);
    Longer(h, events, hosts, Resumed(id, Settled), loaded);
    events, hosts := events + [Resumed(id, Settled)], hosts + [loaded];
    AttachesOn(loaded, id, c, route, viewId);
    Longer(h, events, hosts, Resumed(id, Settled), Step(loaded, Resumed(id, Settled)));
    events, hosts := events + [Resumed(id, Settled)], hosts + [Step(loaded, Resumed(id, Settled))];
  }
}
