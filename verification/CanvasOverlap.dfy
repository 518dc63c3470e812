/**
 * What two overlapping cutovers of one design can do, from reachable states: the earlier
 * one, still waiting for its proxy, sets its view after the later one has attached, and
 * leaves that view behind; or it does before the later one's view has loaded, and the
 * later one returns normally showing the wrong route.
 */
module CanvasOverlap {
  import opened Wrappers
  import opened CanvasBounds
  import opened DesignCanvas
  import opened CanvasChildren
  import opened CanvasFences
  import opened CanvasLeases

  ghost predicate Reachable(h: Host) {
    exists events, hosts :: Run(events, hosts) && hosts[|events|] == h
  }

  lemma RunLonger(events: seq<Event>, hosts: seq<Host>, e: Event, g: Host)
    requires Run(events, hosts) && CanHappen(hosts[|events|], e) && g == Step(hosts[|events|], e)
    ensures Run(events + [e], hosts + [g])
  {
    var moreEvents, moreHosts := events + [e], hosts + [g];
    forall i | 0 <= i < |moreEvents|
      ensures CanHappen(moreHosts[i], moreEvents[i]) && moreHosts[i + 1] == Step(moreHosts[i], moreEvents[i])
    {
      if i < |events| {
        assert moreEvents[i] == events[i] && moreHosts[i] == hosts[i] && moreHosts[i + 1] == hosts[i + 1];
      }
    }
  }

  lemma GoesOn(h: Host, e: Event)
    requires Reachable(h) && CanHappen(h, e)
    ensures Reachable(Step(h, e))
  {
    var events, hosts :| Run(events, hosts) && hosts[|events|] == h;
    RunLonger(events, hosts, e, Step(h, e));
    assert (hosts + [Step(h, e)])[|events + [e]|] == Step(h, e);
  }

  lemma ShowGoesOn(h: Host, input: Show)
    requires Reachable(h)
    ensures Reachable(ShowDesign(h, input))
  {
    GoesOn(h, ShowCalled(input));
  }

  lemma BeginGoesOn(h: Host, id: CallId, outcome: Outcome)
    requires Reachable(h) && id in h.calls && h.calls[id].Beginning? && h.calls[id].sid in h.states
    ensures Reachable(ResumeBegin(h, id, outcome))
  {
    GoesOn(h, Resumed(id, outcome));
  }

  lemma ActivationGoesOn(h: Host, id: CallId, outcome: Outcome)
    requires Reachable(h) && id in h.calls && h.calls[id].Activating? && h.calls[id].sid in h.states
    ensures Reachable(ResumeActivation(h, id, outcome))
  {
    GoesOn(h, Resumed(id, outcome));
  }

  const SCREEN := Identity("task", "generation", "screen")
  const OTHER := Identity("task", "generation", "other")
  const PLACE := Bounds(Finite(0.0), Finite(0.0), Finite(100.0), Finite(100.0))
  const SLOW := Route(SCREEN, [], true)

  function Input(screen: Identity): Show { Show("design", screen, 0, PLACE) }
  function Plain(screen: Identity): Route { Route(screen, [], false) }
  function Lease(screen: Identity): Call { Leased(0, 3, screen, None, false) }

  /** The design's session while a cutover holds `fence` and `screen` is requested. */
  function Fenced(fence: Token, screen: Identity): Session {
    NewSession("design", 1).(requestId := 0, requestedShow := Some(Input(screen)), fenceToken := Some(fence))
  }

  /** The same with a route active in a view. */
  function Viewed(screen: Identity, viewId: nat, route: Route): Session {
    Fenced(3, screen).(mode := AllowRoutes, active := Some(route), view := Some(View(viewId, false)))
  }

  function At(s: Session, calls: map<CallId, Call>, children: set<nat>, next: nat): Host {
    Host(map[0 := s], map["design" := 0], Some(Window(7, false, Finite(1.0), 800.0, 600.0, children)), 1, 0, calls,
         [], next)
  }

  /** Only the earlier cutover is under way. */
  function Early(c: Call): Host {
    At(Fenced(1, SCREEN), map[2 := c], {}, 3)
  }

  function Earlier(stage: Stage): Call { Activating(0, 1, SCREEN, true, stage) }

  /** The earlier cutover waits for its proxy, and the later one has begun. */
  function Both(c: Call): map<CallId, Call> {
    map[2 := Earlier(SettingProxy(SLOW)), 4 := c]
  }

  /** The later one, for `screen`, stands at `stage`, and the earlier one at its own. */
  function Calls(screen: Identity, earlier: Stage, stage: Stage): map<CallId, Call> {
    map[2 := Earlier(earlier), 4 := Lease(screen), 5 := Activating(0, 3, screen, false, stage)]
  }

  function Waiting(screen: Identity, stage: Stage): map<CallId, Call> {
    Calls(screen, SettingProxy(SLOW), stage)
  }

  function Blank(): Host {
    Host(map[], map[], Some(Window(7, false, Finite(1.0), 800.0, 600.0, {})), 1, 0, map[], [], 0)
  }

  predicate OneOf(screen: Identity) {
    screen == SCREEN || screen == OTHER
  }

  lemma NoChildren()
    ensures var none: set<nat> := {}; none - none == none
  {
  }

  // ----- The earlier cutover, up to its proxy -----

  lemma Opens()
    ensures Reachable(Blank())
  {
    var e := AttachWindow(7, Finite(1.0), 800.0, 600.0);
    var none: seq<Event>, first := [], [Initial(0)];
    assert Run(none, first) && first[|none|] == Initial(0);
    assert Reachable(Initial(0));
    GoesOn(Initial(0), e);
    assert Step(Initial(0), e).states == map[];
  }

  lemma Asked()
    ensures ShowDesign(Blank(), Input(SCREEN)) == Early(Beginning(0, 1, SCREEN, None, true, None))
  {
    var ready := WithSession(Blank(), "design");
    assert ready.states == map[0 := NewSession("design", 1)];
    var requested := Request(ready, 0, Input(SCREEN));
    assert OtherSessions(ready, "design") - {0} == {};
    assert ViewsOf(ready, {}) == {};
    NoChildren();
    assert requested.states == map[0 := NewSession("design", 1).(requestId := 0, requestedShow := Some(Input(SCREEN)))];
    assert requested.window == Blank().window;
    var g := Present(requested, 0, Input(SCREEN));
    assert g == StartBegin(requested, 0, SCREEN, None, true);
    assert g.states == map[0 := Fenced(1, SCREEN)];
  }

  lemma Asks()
    ensures Reachable(Early(Beginning(0, 1, SCREEN, None, true, None)))
  {
    Opens();
    ShowGoesOn(Blank(), Input(SCREEN));
    Asked();
  }

  /** Where the session has no view, destroying it changes nothing. */
  lemma NoView(s: Session, calls: map<CallId, Call>, next: nat)
    requires s.view.None? && !s.attached
    ensures Put(At(s, calls, {}, next), 0, DestroyView(s)) == At(s, calls, {}, next)
  {
    NoChildren();
  }

  lemma EarlierCloses()
    ensures Reachable(Early(Leased(0, 1, SCREEN, None, true)))
  {
    Asks();
    var h := Early(Beginning(0, 1, SCREEN, None, true, None));
    NoView(Fenced(1, SCREEN), h.calls, 3);
    BeginGoesOn(h, 2, Settled);
  }

  lemma EarlierCommits()
    ensures Reachable(Early(Earlier(Resolving)))
  {
    EarlierCloses();
    GoesOn(Early(Leased(0, 1, SCREEN, None, true)), Resumed(2, Settled));
  }

  lemma EarlierResolves()
    ensures Reachable(Early(Earlier(ClosingLease(SLOW))))
  {
    EarlierCommits();
    var h := Early(Earlier(Resolving));
    NoView(Fenced(1, SCREEN), h.calls, 3);
    ActivationGoesOn(h, 2, Resolved([], true, true));
  }

  lemma EarlierWaits()
    ensures Reachable(Early(Earlier(SettingProxy(SLOW))))
  {
    EarlierResolves();
    ActivationGoesOn(Early(Earlier(ClosingLease(SLOW))), 2, Settled);
  }

  // ----- The later one, for the same screen or the other -----

  lemma ValidScreen(screen: Identity)
    requires OneOf(screen)
    ensures ValidIdentity(screen)
  {
  }

  lemma LaterFenced(screen: Identity, h: Host)
    requires h == Early(Earlier(SettingProxy(SLOW)))
    ensures StartBegin(h, 0, screen, None, false) ==
            At(Fenced(3, SCREEN), Both(Beginning(0, 3, screen, None, false, None)), {}, 5)
  {
  }

  lemma LaterBegun(screen: Identity)
    requires OneOf(screen)
    ensures Step(Early(Earlier(SettingProxy(SLOW))), BeginCalled("design", screen, None)) ==
            At(Fenced(3, SCREEN), Both(Beginning(0, 3, screen, None, false, None)), {}, 5)
  {
    ValidScreen(screen);
    LaterFenced(screen, Early(Earlier(SettingProxy(SLOW))));
  }

  lemma LaterBegins(screen: Identity)
    requires OneOf(screen)
    ensures Reachable(At(Fenced(3, SCREEN), Both(Beginning(0, 3, screen, None, false, None)), {}, 5))
  {
    EarlierWaits();
    GoesOn(Early(Earlier(SettingProxy(SLOW))), BeginCalled("design", screen, None));
    LaterBegun(screen);
  }

  lemma LaterRequested(screen: Identity)
    requires OneOf(screen)
    ensures Request(At(Fenced(3, SCREEN), Both(Beginning(0, 3, screen, None, false, None)), {}, 5), 0, Input(screen)) ==
            At(Fenced(3, screen), Both(Beginning(0, 3, screen, None, false, None)), {}, 5)
  {
    var h := At(Fenced(3, SCREEN), Both(Beginning(0, 3, screen, None, false, None)), {}, 5);
    assert OtherSessions(h, "design") - {0} == {};
    assert ViewsOf(h, {}) == {};
    NoChildren();
    var g := Request(h, 0, Input(screen));
    assert g.states == map[0 := Fenced(3, screen)];
    assert g.window == h.window;
  }

  lemma LaterAsked(screen: Identity)
    requires OneOf(screen)
    ensures ShowDesign(At(Fenced(3, SCREEN), Both(Beginning(0, 3, screen, None, false, None)), {}, 5), Input(screen)) ==
            At(Fenced(3, screen), Both(Beginning(0, 3, screen, None, false, None)), {}, 5)
  {
    LaterRequested(screen);
  }

  lemma LaterAsks(screen: Identity)
    requires OneOf(screen)
    ensures Reachable(At(Fenced(3, screen), Both(Beginning(0, 3, screen, None, false, None)), {}, 5))
  {
    LaterBegins(screen);
    ShowGoesOn(At(Fenced(3, SCREEN), Both(Beginning(0, 3, screen, None, false, None)), {}, 5), Input(screen));
    LaterAsked(screen);
  }

  lemma LaterCloses(screen: Identity)
    requires OneOf(screen)
    ensures Reachable(At(Fenced(3, screen), Both(Lease(screen)), {}, 5))
  {
    LaterAsks(screen);
    var h := At(Fenced(3, screen), Both(Beginning(0, 3, screen, None, false, None)), {}, 5);
    NoView(Fenced(3, screen), h.calls, 5);
    BeginGoesOn(h, 4, Settled);
  }

  lemma LaterCommits(screen: Identity)
    requires OneOf(screen)
    ensures Reachable(At(Fenced(3, screen), Waiting(screen, Resolving), {}, 6))
  {
    LaterCloses(screen);
    GoesOn(At(Fenced(3, screen), Both(Lease(screen)), {}, 5), CommitCalled(4));
  }

  lemma LaterResolves(screen: Identity)
    requires OneOf(screen)
    ensures Reachable(At(Fenced(3, screen), Waiting(screen, ClosingLease(Plain(screen))), {}, 6))
  {
    LaterCommits(screen);
    var h := At(Fenced(3, screen), Waiting(screen, Resolving), {}, 6);
    NoView(Fenced(3, screen), h.calls, 6);
    ActivationGoesOn(h, 5, Resolved([], false, true));
  }

  lemma LaterInstalled(screen: Identity)
    requires OneOf(screen)
    ensures ResumeActivation(At(Fenced(3, screen), Waiting(screen, ClosingLease(Plain(screen))), {}, 6), 5, Settled) ==
            At(Viewed(screen, 6, Plain(screen)), Waiting(screen, Loading(6, "generation")), {}, 7)
  {
    var h := At(Fenced(3, screen), Waiting(screen, ClosingLease(Plain(screen))), {}, 6);
    assert ResumeActivation(h, 5, Settled) == Install(h, 5, Plain(screen));
    assert Waiting(screen, Loading(6, "generation")) ==
           h.calls[5 := Activating(0, 3, screen, false, Loading(6, "generation"))];
  }

  lemma LaterInstalls(screen: Identity)
    requires OneOf(screen)
    ensures Reachable(At(Viewed(screen, 6, Plain(screen)), Waiting(screen, Loading(6, "generation")), {}, 7))
  {
    LaterResolves(screen);
    ActivationGoesOn(At(Fenced(3, screen), Waiting(screen, ClosingLease(Plain(screen))), {}, 6), 5, Settled);
    LaterInstalled(screen);
  }

  // ----- The earlier one sets its view last: the attached one is left behind -----

  lemma LaterLoaded()
    ensures ResumeActivation(At(Viewed(SCREEN, 6, Plain(SCREEN)), Waiting(SCREEN, Loading(6, "generation")), {}, 7),
                             5, Settled) ==
            At(Viewed(SCREEN, 6, Plain(SCREEN)), Waiting(SCREEN, Loaded), {}, 7)
  {
  }

  lemma LaterLoads()
    ensures Reachable(At(Viewed(SCREEN, 6, Plain(SCREEN)), Waiting(SCREEN, Loaded), {}, 7))
  {
    LaterInstalls(SCREEN);
    ActivationGoesOn(At(Viewed(SCREEN, 6, Plain(SCREEN)), Waiting(SCREEN, Loading(6, "generation")), {}, 7), 5,
                     Settled);
    LaterLoaded();
  }

  function Attached(): Host {
    At(Viewed(SCREEN, 6, Plain(SCREEN)).(attached := true), Waiting(SCREEN, Returning(true)), {6}, 7)
  }

  lemma PlacedHere(s: Session, calls: map<CallId, Call>, next: nat, viewId: nat)
    requires s.view == Some(View(viewId, false)) && !s.attached
    ensures PlaceAndAttach(At(s, calls, {}, next), 0, PLACE) == At(s.(attached := true), calls, {viewId}, next)
  {
    var none: set<nat> := {};
    assert none + {viewId} == {viewId};
    assert NormalizeBounds(PLACE, Finite(1.0), 800.0, 600.0).Some?;
  }

  /** The last step of the activation attaches the view to the window. */
  lemma FinishedHere(s: Session, calls: map<CallId, Call>, next: nat, viewId: nat, id: CallId)
    requires id in calls && calls[id].Activating? && calls[id].sid == 0 && s.fenceToken == Some(calls[id].token)
    requires s.view == Some(View(viewId, false)) && !s.attached && s.requestedShow == Some(Input(calls[id].identity))
    ensures FinishActivation(At(s, calls, {}, next), id) ==
            At(s.(attached := true), calls[id := calls[id].(stage := Returning(true))], {viewId}, next)
  {
    PlacedHere(s, calls, next, viewId);
  }

  lemma LaterAttached()
    ensures ResumeActivation(At(Viewed(SCREEN, 6, Plain(SCREEN)), Waiting(SCREEN, Loaded), {}, 7), 5, Settled) ==
            Attached()
  {
    FinishedHere(Viewed(SCREEN, 6, Plain(SCREEN)), Waiting(SCREEN, Loaded), 7, 6, 5);
  }

  lemma LaterAttaches()
    ensures Reachable(Attached())
  {
    LaterLoads();
    ActivationGoesOn(At(Viewed(SCREEN, 6, Plain(SCREEN)), Waiting(SCREEN, Loaded), {}, 7), 5, Settled);
    LaterAttached();
  }

  lemma Overlaps(h: Host)
    requires h == Attached()
    ensures LeavesViewBehind(h, Resumed(2, Settled)) && ChildrenMatch(h) && !ChildrenMatch(Step(h, Resumed(2, Settled)))
  {
    var g := Step(h, Resumed(2, Settled));
    assert 6 in AttachedView(h.states[0]);
    assert AttachedViews(h) == {6};
    assert 7 in AttachedView(g.states[0]);
    assert 7 in AttachedViews(g);
  }

  /** A view can be left behind: the earlier cutover's own step does it, from a reachable state. */
  lemma ViewLeftBehind() returns (h: Host, e: Event)
    ensures Reachable(h) && LeavesViewBehind(h, e) && ChildrenMatch(h) && !ChildrenMatch(Step(h, e))
  {
    h, e := Attached(), Resumed(2, Settled);
    LaterAttaches();
    Overlaps(h);
  }

  // ----- It sets it while the later one loads: the later one shows the earlier one's route -----

  /** The earlier one's view is set over the later one's. */
  function Over(screen: Identity, stage: Stage): Host {
    At(Viewed(screen, 7, SLOW), Calls(screen, Loading(7, "generation"), stage), {}, 8)
  }

  lemma EarlierInstalled(screen: Identity)
    requires OneOf(screen)
    ensures ResumeActivation(At(Viewed(screen, 6, Plain(screen)), Waiting(screen, Loading(6, "generation")), {}, 7), 2,
                             Settled) == Over(screen, Loading(6, "generation"))
    ensures InstallOf(At(Viewed(screen, 6, Plain(screen)), Waiting(screen, Loading(6, "generation")), {}, 7),
                      Resumed(2, Settled), 0)
            == Some(SCREEN)
  {
    var h := At(Viewed(screen, 6, Plain(screen)), Waiting(screen, Loading(6, "generation")), {}, 7);
    assert ResumeActivation(h, 2, Settled) == Install(h, 2, SLOW);
    assert Calls(screen, Loading(7, "generation"), Loading(6, "generation")) ==
           h.calls[2 := Earlier(Loading(7, "generation"))];
  }

  lemma EarlierInstalls(screen: Identity)
    requires OneOf(screen)
    ensures Reachable(Over(screen, Loading(6, "generation")))
  {
    LaterInstalls(screen);
    ActivationGoesOn(At(Viewed(screen, 6, Plain(screen)), Waiting(screen, Loading(6, "generation")), {}, 7), 2,
                     Settled);
    EarlierInstalled(screen);
  }

  lemma LaterLoadedUnder(screen: Identity)
    requires OneOf(screen)
    ensures ResumeActivation(Over(screen, Loading(6, "generation")), 5, Settled) == Over(screen, Loaded)
  {
  }

  lemma LaterLoadsUnder(screen: Identity)
    requires OneOf(screen)
    ensures Reachable(Over(screen, Loaded))
  {
    EarlierInstalls(screen);
    ActivationGoesOn(Over(screen, Loading(6, "generation")), 5, Settled);
    LaterLoadedUnder(screen);
  }

  lemma LaterFinishes(screen: Identity)
    requires OneOf(screen)
    ensures ResumeActivation(Over(screen, Loaded), 5, Settled) ==
            At(Viewed(screen, 7, SLOW).(attached := true), Calls(screen, Loading(7, "generation"), Returning(true)),
               {7}, 8)
  {
    FinishedHere(Viewed(screen, 7, SLOW), Calls(screen, Loading(7, "generation"), Loaded), 8, 7, 5);
  }

  /** The session is attached and shows one identity's route although another's may be requested. */
  predicate ShowsFor(h: Host, shown: Identity, requested: Identity) {
    && 0 in h.states && h.states[0].attached
    && h.states[0].active.Some? && h.states[0].active.value.identity == shown
    && h.states[0].requestedShow.Some? && h.states[0].requestedShow.value.identity == requested
  }

  /**
   * The later lease returns normally from a reachable state after the earlier one's route
   * was made active over its own. Its session is well shown if the routes are of one
   * identity; otherwise it shows the earlier one's, although the later one's is requested.
   */
  lemma ShownOver(screen: Identity) returns (h: Host, e: Event)
    requires OneOf(screen)
    ensures Reachable(h) && CanHappen(h, e) && Own(h, e, 0, 3) && Returns(h, Step(h, e), 5, 0, 3)
    ensures WellShownIn(Step(h, e), 0) <==> screen == SCREEN
    ensures ShowsFor(Step(h, e), SCREEN, screen)
  {
    h, e := Over(screen, Loaded), Resumed(5, Settled);
    LaterLoadsUnder(screen);
    LaterFinishes(screen);
  }

  lemma FailedUnder(screen: Identity)
    requires OneOf(screen)
    ensures ResumeActivation(Over(screen, Loading(6, "generation")), 5, Rejected) == Over(screen, Loaded)
  {
  }

  /**
   * A load can fail and its lease still return normally with the session attached: from a reachable
   * state in which the earlier one's view has replaced its own.
   */
  lemma FailedLoadShown(screen: Identity) returns (h: Host, g: Host)
    requires OneOf(screen)
    ensures Reachable(h) && 5 in h.calls && h.calls[5] == Activating(0, 3, screen, false, Loading(6, "generation"))
    ensures CanHappen(h, Resumed(5, Rejected)) && g == Step(h, Resumed(5, Rejected))
    ensures CanHappen(g, Resumed(5, Settled)) && Returns(g, Step(g, Resumed(5, Settled)), 5, 0, 3)
    ensures ShowsFor(Step(g, Resumed(5, Settled)), SCREEN, screen)
  {
    h, g := Over(screen, Loading(6, "generation")), Over(screen, Loaded);
    EarlierInstalls(screen);
    FailedUnder(screen);
    LaterFinishes(screen);
  }
}
