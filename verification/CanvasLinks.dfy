/**
 * The links a design's page asks to open outside. They wait for an approval, at most
 * sixteen per session; each is opened at most once, and never after it has expired.
 */
module CanvasLinks {
  import opened Wrappers
  import opened CanvasBounds
  import opened DesignCanvas
  import opened CanvasSafety
  import opened CanvasFrames

  // ----- Pruning -----

  lemma {:induction false} UnexpiredOnes(links: seq<Link>, now: int)
    ensures forall l :: l in UnexpiredLinks(links, now) <==> l in links && Unexpired(l, now)
  {
    if links != [] {
      UnexpiredOnes(links[1..], now);
      assert links == [links[0]] + links[1..];
    }
  }

  /** Ids in the order the links were requested. */
  predicate InOrder(links: seq<Link>, next: nat) {
    && (forall i, j :: 0 <= i < j < |links| ==> links[i].id < links[j].id)
    && (forall i :: 0 <= i < |links| ==> links[i].id < next)
  }

  lemma {:induction false} UnexpiredInOrder(links: seq<Link>, now: int, next: nat)
    requires InOrder(links, next)
    ensures InOrder(UnexpiredLinks(links, now), next)
  {
    if links != [] {
      var rest := links[1..];
      assert links == [links[0]] + rest;
      TailInOrder(links[0], rest, next);
      UnexpiredInOrder(rest, now, next);
      UnexpiredOnes(rest, now);
      PrependInOrder(links[0], UnexpiredLinks(rest, now), next);
    }
  }

  lemma TailInOrder(first: Link, rest: seq<Link>, next: nat)
    requires InOrder([first] + rest, next)
    ensures InOrder(rest, next) && first.id < next && forall l :: l in rest ==> first.id < l.id
  {
    var links := [first] + rest;
    assert links[0] == first;
    assert forall i :: 0 <= i < |rest| ==> rest[i] == links[i + 1];
  }

  lemma PrependInOrder(first: Link, kept: seq<Link>, next: nat)
    requires InOrder(kept, next) && first.id < next && forall l :: l in kept ==> first.id < l.id
    ensures InOrder([first] + kept, next)
  {
  }

  lemma TailNewest(links: seq<Link>, n: nat, next: nat)
    requires InOrder(links, next) && n <= |links|
    ensures InOrder(links[n..], next)
    ensures forall l, k :: l in links && l !in links[n..] && k in links[n..] ==> l.id < k.id
  {
    assert forall i :: n <= i < |links| ==> links[i] == links[n..][i - n];
    forall l, k | l in links && l !in links[n..] && k in links[n..] ensures l.id < k.id {
      var i :| 0 <= i < |links| && links[i] == l;
      var j :| 0 <= j < |links[n..]| && links[n..][j] == k;
      assert links[n + j] == k;
    }
  }

  lemma NewestStay(links: seq<Link>, next: nat)
    requires InOrder(links, next)
    ensures InOrder(NewestOf(links), next) && forall l :: l in NewestOf(links) ==> l in links
    ensures forall l, k :: l in links && l !in NewestOf(links) && k in NewestOf(links) ==> l.id < k.id
    ensures forall l :: l in links && l !in NewestOf(links) ==> |NewestOf(links)| == MAX_LINKS
  {
    if |links| > MAX_LINKS { TailNewest(links, |links| - MAX_LINKS, next); }
  }

  /** Only unexpired links stay, in order, and one is dropped only when sixteen newer unexpired ones stay. */
  lemma PruneKeepsNewest(links: seq<Link>, now: int, next: nat)
    requires InOrder(links, next)
    ensures InOrder(Prune(links, now), next)
    ensures forall l :: l in Prune(links, now) ==> l in links && Unexpired(l, now)
    ensures forall l, k :: l in links && Unexpired(l, now) && l !in Prune(links, now) && k in Prune(links, now) ==>
              l.id < k.id
    ensures forall l :: l in links && Unexpired(l, now) && l !in Prune(links, now) ==> |Prune(links, now)| == MAX_LINKS
  {
    UnexpiredOnes(links, now);
    UnexpiredInOrder(links, now, next);
    NewestStay(UnexpiredLinks(links, now), next);
  }

  predicate Newest(links: seq<Link>, l: Link, now: int) {
    exists i :: 0 <= i < |links| && links[i] == l && Unexpired(l, now) && NoneFrom(links, i + 1, now)
  }

  predicate NoneFrom(links: seq<Link>, i: nat, now: int) {
    forall j :: i <= j < |links| ==> !Unexpired(links[j], now)
  }

  lemma NoneThere(links: seq<Link>, now: int)
    ensures UnexpiredLinks(links, now) == [] <==> NoneFrom(links, 0, now)
  {
    UnexpiredOnes(links, now);
    var kept := UnexpiredLinks(links, now);
    if kept != [] { assert kept[0] in kept; }
    forall j | 0 <= j < |links| && kept == [] ensures !Unexpired(links[j], now) { assert links[j] in links; }
  }

  lemma {:induction false} LastIsNewest(links: seq<Link>, now: int)
    requires UnexpiredLinks(links, now) != []
    ensures var kept := UnexpiredLinks(links, now); Newest(links, kept[|kept| - 1], now)
  {
    var rest := links[1..];
    var kept := UnexpiredLinks(rest, now);
    if kept != [] {
      LastIsNewest(rest, now);
      var i :| 0 <= i < |rest| && rest[i] == kept[|kept| - 1] && Unexpired(rest[i], now) && NoneFrom(rest, i + 1, now);
      NoneShifts(links, i + 1, now);
      assert links[i + 1] == rest[i];
    } else {
      NoneThere(rest, now);
      NoneShifts(links, 0, now);
      assert links[0] == UnexpiredLinks(links, now)[0];
    }
  }

  lemma NoneShifts(links: seq<Link>, i: nat, now: int)
    requires links != [] && NoneFrom(links[1..], i, now)
    ensures NoneFrom(links, i + 1, now)
  {
    forall j | i + 1 <= j < |links| ensures !Unexpired(links[j], now) { assert links[j] == links[1..][j - 1]; }
  }

  /** What stays of the links of a design that gives way: the newest unexpired one, or none when all have expired. */
  lemma RetainsNewest(links: seq<Link>, now: int)
    ensures RetainLatest(links, now) == [] <==> NoneFrom(links, 0, now)
    ensures forall l :: RetainLatest(links, now) == [l] ==> Newest(links, l, now)
    ensures |RetainLatest(links, now)| <= 1
  {
    NoneThere(links, now);
    if UnexpiredLinks(links, now) != [] { LastIsNewest(links, now); }
  }

  // ----- One step -----

  function LinksOf(h: Host, sid: SessionId): seq<Link> {
    if sid in h.states then h.states[sid].pendingLinks else []
  }

  /** Nothing is opened, and the session keeps its links, the newest unexpired one, or none. */
  predicate LinksStay(h: Host, g: Host, sid: SessionId) {
    g.openedLinks == h.openedLinks && LinksOf(g, sid) in {LinksOf(h, sid), RetainLatest(LinksOf(h, sid), h.now), []}
  }

  lemma WithSessionLinks(h: Host, designId: DesignId, sid: SessionId)
    requires Inv(h)
    ensures LinksOf(WithSession(h, designId), sid) == LinksOf(h, sid)
  {
  }

  lemma RequestLinks(h: Host, at: SessionId, input: Show, sid: SessionId)
    requires at in h.states
    ensures LinksStay(h, Request(h, at, input), sid) && LinksOf(Request(h, at, input), at) == LinksOf(h, at)
  {
  }

  lemma PlaceLinks(h: Host, at: SessionId, bounds: Bounds, sid: SessionId)
    requires at in h.states
    ensures LinksStay(h, PlaceAndAttach(h, at, bounds), sid) &&
            (sid != at ==> LinksOf(PlaceAndAttach(h, at, bounds), sid) == LinksOf(h, sid))
  {
    var s := h.states[at];
    var g := PlaceAndAttach(h, at, bounds);
    assert g.states == h.states[at := g.states[at]];
    assert g.states[at].pendingLinks in {s.pendingLinks, RetainLatest(s.pendingLinks, h.now)};
  }

  lemma StartBeginLinks(h: Host, at: SessionId, candidate: Identity, replaced: Option<Identity>, byShow: bool,
                        sid: SessionId)
    requires at in h.states
    ensures LinksStay(h, StartBegin(h, at, candidate, replaced, byShow), sid)
    ensures sid != at ==> LinksOf(StartBegin(h, at, candidate, replaced, byShow), sid) == LinksOf(h, sid)
  {
  }

  lemma PresentLinks(h: Host, at: SessionId, input: Show, sid: SessionId)
    requires at in h.states
    ensures LinksStay(h, Present(h, at, input), sid) &&
            (sid != at ==> LinksOf(Present(h, at, input), sid) == LinksOf(h, sid))
  {
    var s := h.states[at];
    var replaced := if s.active.Some? then Some(s.active.value.identity) else None;
    PlaceLinks(h, at, input.bounds, sid);
    StartBeginLinks(h, at, input.identity, replaced, true, sid);
  }

  lemma ShowLinks(h: Host, input: Show, sid: SessionId)
    requires Inv(h)
    ensures LinksStay(h, ShowDesign(h, input), sid)
  {
    var ready := WithSession(h, input.designId);
    WithSessionLinks(h, input.designId, sid);
    var g := ShowDesign(h, input);
    if g != h && g != ready {
      var at := RequireSession(h, input.designId).value;
      RequestLinks(ready, at, input, sid);
      PresentLinks(Request(ready, at, input), at, input, sid);
    }
  }

  lemma RefreshLinks(h: Host, designId: DesignId, generationId: string, requestId: int, sid: SessionId)
    requires Inv(h)
    ensures LinksStay(h, Refresh(h, designId, generationId, requestId), sid)
  {
    if designId in h.sessions && Accepts(h.states[h.sessions[designId]], h.rendererEpoch, requestId) {
      var at := h.sessions[designId];
      AcceptKeeps(h, at, requestId);
      var s := h.states[at];
      var accepted := h.(states := h.states[at := s.(requestId := requestId)]);
      assert LinksOf(accepted, sid) == LinksOf(h, sid);
      if s.requestedShow.Some? && !LiveView(s) {
        ShowLinks(accepted, s.requestedShow.value.(requestId := requestId), sid);
      }
    }
  }

  lemma BeginCutoverLinks(h: Host, designId: DesignId, candidate: Identity, replaced: Option<Identity>, sid: SessionId)
    requires Inv(h)
    ensures LinksStay(h, BeginCutover(h, designId, candidate, replaced), sid)
  {
    WithSessionLinks(h, designId, sid);
  }

  lemma ResumeShowLinks(h: Host, id: CallId, sid: SessionId)
    requires Inv(h) && id in h.calls && h.calls[id].ShowAfterCommit?
    ensures LinksStay(h, ResumeShow(h, id), sid)
  {
    EndCallKeeps(h, id);
    var s := h.states[h.calls[id].sid];
    if s.requestedShow.Some? { ShowLinks(EndCall(h, id), s.requestedShow.value, sid); }
  }

  lemma FinishLinks(h: Host, id: CallId, sid: SessionId)
    requires id in h.calls && h.calls[id].Activating? && h.calls[id].sid in h.states
    ensures LinksStay(h, FinishActivation(h, id), sid)
  {
    var c := h.calls[id];
    var s := h.states[c.sid];
    if s.fenceToken == Some(c.token) && RequestedFor(s, c.identity) && LiveView(s) {
      PlaceLinks(h, c.sid, s.requestedShow.value.bounds, sid);
    } else {
      assert LinksOf(FinishActivation(h, id), sid) == LinksOf(h, sid);
    }
  }

  lemma ActivateLinks(h: Host, id: CallId, route: Route, outcome: Outcome, sid: SessionId)
    requires id in h.calls && h.calls[id].Activating? && h.calls[id].sid in h.states
    ensures LinksStay(h, Activate(h, id, route, outcome), sid)
  {
  }

  lemma StageLinks(h: Host, id: CallId, outcome: Outcome, sid: SessionId)
    requires id in h.calls && h.calls[id].Activating? && h.calls[id].sid in h.states && !h.calls[id].stage.Loaded?
    ensures LinksStay(h, ResumeActivation(h, id, outcome), sid)
  {
    var stage := h.calls[id].stage;
    if stage.ClosingLease? || stage.SettingProxy? { ActivateLinks(h, id, stage.route, outcome, sid); }
  }

  lemma BeginLinks(h: Host, id: CallId, outcome: Outcome, sid: SessionId)
    requires id in h.calls && h.calls[id].Beginning? && h.calls[id].sid in h.states
    ensures LinksStay(h, ResumeBegin(h, id, outcome), sid)
  {
  }

  lemma OtherResumedLinks(h: Host, id: CallId, outcome: Outcome, sid: SessionId)
    requires CanHappen(h, Resumed(id, outcome)) &&
             (h.calls[id].Leased? || h.calls[id].Reloading? || h.calls[id].Closing?)
    ensures LinksStay(h, Step(h, Resumed(id, outcome)), sid)
  {
  }

  lemma ResumedLinks(h: Host, id: CallId, outcome: Outcome, sid: SessionId)
    requires Inv(h) && CanHappen(h, Resumed(id, outcome))
    ensures LinksStay(h, Step(h, Resumed(id, outcome)), sid)
  {
    if h.calls[id].Activating? {
      if h.calls[id].stage.Loaded? { FinishLinks(h, id, sid); } else { StageLinks(h, id, outcome, sid); }
    } else if h.calls[id].ShowAfterCommit? {
      ResumeShowLinks(h, id, sid);
    } else if h.calls[id].Beginning? {
      BeginLinks(h, id, outcome, sid);
    } else {
      OtherResumedLinks(h, id, outcome, sid);
    }
  }

  predicate ForAllSessions(e: Event) {
    e.AttachWindow? || e.DetachWindow? || e.GenerationUnavailable? || e.RendererReset?
  }

  lemma AllSessionsLinks(h: Host, e: Event, sid: SessionId)
    requires ForAllSessions(e)
    ensures LinksStay(h, Step(h, e), sid)
  {
  }

  lemma CloseLinks(h: Host, designId: DesignId, sid: SessionId)
    ensures LinksStay(h, Close(h, designId), sid)
  {
  }

  lemma HideLinks(h: Host, designId: DesignId, requestId: int, sid: SessionId)
    ensures LinksStay(h, Hide(h, designId, requestId), sid)
  {
  }

  lemma OtherEventLinks(h: Host, e: Event, sid: SessionId)
    requires CanHappen(h, e)
    requires e.CommitCalled? || e.RollbackCalled? || e.ViewDestroyed? || e.WindowDestroyed? || e.WindowResized? ||
             e.TimePasses?
    ensures LinksStay(h, Step(h, e), sid)
  {
  }

  /** Links come only from the page's requests and are used up only by approvals. */
  lemma StepLinks(h: Host, e: Event, sid: SessionId)
    requires Inv(h) && CanHappen(h, e) && !e.LinkRequested? && !e.ApproveCalled?
    ensures LinksStay(h, Step(h, e), sid)
  {
    match e {
      case ShowCalled(input) => ShowLinks(h, input, sid);
      case RefreshCalled(designId, generationId, requestId) => RefreshLinks(h, designId, generationId, requestId, sid);
      case BeginCalled(designId, candidate, replaced) => BeginCutoverLinks(h, designId, candidate, replaced, sid);
      case Resumed(call, outcome) => ResumedLinks(h, call, outcome, sid);
      case HideCalled(designId, requestId) => HideLinks(h, designId, requestId, sid);
      case CloseCalled(designId) => CloseLinks(h, designId, sid);
      case _ => if ForAllSessions(e) { AllSessionsLinks(h, e, sid); } else { OtherEventLinks(h, e, sid); }
    }
  }

  // ----- Every run -----

  predicate PendingIn(h: Host, sid: SessionId, id: nat) {
    exists l :: l in LinksOf(h, sid) && l.id == id
  }

  predicate LinksOk(links: seq<Link>, next: nat) {
    |links| <= MAX_LINKS && InOrder(links, next)
  }

  /** Once opened, an id is pending nowhere. */
  ghost predicate UsedUp(h: Host, id: nat) {
    id < h.next && forall sid :: !PendingIn(h, sid, id)
  }

  ghost predicate OpenedOnce(h: Host) {
    && (forall i, j :: 0 <= i < j < |h.openedLinks| ==> h.openedLinks[i] != h.openedLinks[j])
    && (forall i :: 0 <= i < |h.openedLinks| ==> UsedUp(h, h.openedLinks[i]))
  }

  ghost predicate LinksInv(h: Host) {
    && (forall sid :: LinksOk(LinksOf(h, sid), h.next))
    && (forall a, b, id :: PendingIn(h, a, id) && PendingIn(h, b, id) ==> a == b)
    && OpenedOnce(h)
  }

  lemma RetainedOk(links: seq<Link>, now: int, next: nat)
    requires LinksOk(links, next)
    ensures LinksOk(RetainLatest(links, now), next) && forall l :: l in RetainLatest(links, now) ==> l in links
  {
    PruneKeepsNewest(links, now, next);
  }

  /** No new link anywhere, and nothing opened. */
  lemma FewerKeep(h: Host, g: Host)
    requires LinksInv(h) && g.openedLinks == h.openedLinks && h.next <= g.next
    requires forall sid :: LinksOk(LinksOf(g, sid), g.next)
    requires forall sid, id :: PendingIn(g, sid, id) ==> PendingIn(h, sid, id)
    ensures LinksInv(g)
  {
    forall i | 0 <= i < |g.openedLinks| ensures UsedUp(g, g.openedLinks[i]) {
      assert UsedUp(h, h.openedLinks[i]);
    }
  }

  lemma StayKeeps(h: Host, g: Host)
    requires LinksInv(h) && h.next <= g.next && forall sid :: LinksStay(h, g, sid)
    ensures LinksInv(g)
  {
    assert LinksStay(h, g, 0);
    forall sid ensures LinksOk(LinksOf(g, sid), g.next) && forall l :: l in LinksOf(g, sid) ==> l in LinksOf(h, sid) {
      assert LinksStay(h, g, sid);
      assert LinksOk(LinksOf(h, sid), h.next);
      RetainedOk(LinksOf(h, sid), h.now, h.next);
    }
    FewerKeep(h, g);
  }

  lemma AppendInOrder(links: seq<Link>, link: Link, next: nat)
    requires InOrder(links, next) && link.id == next
    ensures InOrder(links + [link], next + 1)
  {
  }

  lemma AppendedOk(links: seq<Link>, link: Link, now: int, next: nat)
    requires LinksOk(links, next) && link.id == next
    ensures LinksOk(Prune(links + [link], now), next + 1)
    ensures forall l :: l in Prune(links + [link], now) ==> l in links || l == link
  {
    AppendInOrder(links, link, next);
    PruneKeepsNewest(links + [link], now, next + 1);
  }

  lemma RequestLinkIs(h: Host, sid: SessionId, lifetime: int)
    requires sid in h.states
    ensures var g := RequestLink(h, sid, lifetime);
            LinksOf(g, sid) == Prune(LinksOf(h, sid) + [Link(h.next, h.now + lifetime)], h.now) && g.next == h.next + 1
  {
  }

  /** The page's link is new, and waits from now for its lifetime. */
  lemma RequestedLink(h: Host, sid: SessionId, lifetime: int)
    requires sid in h.states && LinksOk(LinksOf(h, sid), h.next)
    ensures LinksOk(LinksOf(RequestLink(h, sid, lifetime), sid), RequestLink(h, sid, lifetime).next)
    ensures forall l :: l in LinksOf(RequestLink(h, sid, lifetime), sid) ==>
              l in LinksOf(h, sid) || l == Link(h.next, h.now + lifetime)
  {
    RequestLinkIs(h, sid, lifetime);
    AppendedOk(LinksOf(h, sid), Link(h.next, h.now + lifetime), h.now, h.next);
  }

  lemma RequestedKeeps(h: Host, sid: SessionId, lifetime: int)
    requires sid in h.states && LinksInv(h)
    ensures LinksInv(RequestLink(h, sid, lifetime))
  {
    var g := RequestLink(h, sid, lifetime);
    assert LinksOk(LinksOf(h, sid), h.next);
    RequestedLink(h, sid, lifetime);
    forall other ensures LinksOk(LinksOf(g, other), g.next) { assert LinksOk(LinksOf(h, other), h.next); }
    forall a: nat, id: nat | PendingIn(g, a, id) ensures PendingIn(h, a, id) || (a == sid && id == h.next) {}
    forall a: nat, id: nat | PendingIn(h, a, id) ensures id < h.next { assert LinksOk(LinksOf(h, a), h.next); }
    forall i | 0 <= i < |g.openedLinks| ensures UsedUp(g, g.openedLinks[i]) { assert UsedUp(h, h.openedLinks[i]); }
  }

  lemma WithoutOneInOrder(links: seq<Link>, i: nat, next: nat)
    requires LinksOk(links, next) && i < |links|
    ensures var rest := links[..i] + links[i + 1..];
            LinksOk(rest, next) && (forall l :: l in rest ==> l in links && l.id != links[i].id)
  {
  }

  /** An approval takes its link out of its session, whether it opens it or not. */
  lemma ApprovedKeeps(h: Host, designId: DesignId, linkId: nat)
    requires LinksInv(h)
    ensures LinksInv(Approve(h, designId, linkId))
  {
    var g := Approve(h, designId, linkId);
    if g != h {
      var at := h.sessions[designId];
      var links := LinksOf(h, at);
      var i := FindLink(links, linkId);
      assert links[i] in links && PendingIn(h, at, linkId);
      assert LinksOk(links, h.next);
      WithoutOneInOrder(links, i, h.next);
      var used := g.(openedLinks := h.openedLinks);
      forall sid
        ensures LinksOk(LinksOf(used, sid), used.next) && forall l :: l in LinksOf(used, sid) ==> l in LinksOf(h, sid)
      {
        assert LinksOk(LinksOf(h, sid), h.next);
      }
      FewerKeep(h, used);
      forall sid ensures !PendingIn(used, sid, linkId) {
        if sid != at { assert !PendingIn(h, sid, linkId); }
      }
      OpenKeeps(used, linkId);
    }
  }

  lemma OpenKeeps(h: Host, id: nat)
    requires LinksInv(h) && UsedUp(h, id) && id !in h.openedLinks
    ensures LinksInv(h.(openedLinks := h.openedLinks + [id]))
  {
    var g := h.(openedLinks := h.openedLinks + [id]);
    forall sid: nat, x: nat | PendingIn(g, sid, x) ensures PendingIn(h, sid, x) {}
    forall i | 0 <= i < |g.openedLinks| ensures UsedUp(g, g.openedLinks[i]) { assert UsedUp(h, g.openedLinks[i]); }
    forall sid ensures LinksOk(LinksOf(g, sid), g.next) { assert LinksOk(LinksOf(h, sid), h.next); }
    forall a: nat, b: nat, x: nat | PendingIn(g, a, x) && PendingIn(g, b, x) ensures a == b {
      assert PendingIn(h, a, x) && PendingIn(h, b, x);
    }
  }

  /** What a step does to the links: a page's request, an approval, or neither. */
  ghost predicate LinkStep(h: Host, e: Event, g: Host) {
    match e
    case LinkRequested(sid, lifetime) => sid in h.states && g == RequestLink(h, sid, lifetime)
    case ApproveCalled(designId, linkId) => g == Approve(h, designId, linkId)
    case _ => h.next <= g.next && forall sid :: LinksStay(h, g, sid)
  }

  lemma EachStep(h: Host, e: Event)
    requires Inv(h) && CanHappen(h, e)
    ensures LinkStep(h, e, Step(h, e))
  {
    var g := Step(h, e);
    StepFrame(h, e);
    forall sid | !e.LinkRequested? && !e.ApproveCalled? ensures LinksStay(h, g, sid) { StepLinks(h, e, sid); }
  }

  lemma LinkStepKeeps(h: Host, e: Event, g: Host)
    requires LinksInv(h) && LinkStep(h, e, g)
    ensures LinksInv(g)
  {
    match e {
      case LinkRequested(sid, lifetime) => RequestedKeeps(h, sid, lifetime);
      case ApproveCalled(designId, linkId) => ApprovedKeeps(h, designId, linkId);
      case _ => StayKeeps(h, g);
    }
  }

  lemma {:induction false} RunLinks(events: seq<Event>, hosts: seq<Host>, i: nat)
    requires Run(events, hosts) && i < |hosts|
    ensures LinksInv(hosts[i])
  {
    if i > 0 {
      RunLinks(events, hosts, i - 1);
      RunKeeps(events, hosts, i - 1);
      EachStep(hosts[i - 1], events[i - 1]);
      LinkStepKeeps(hosts[i - 1], events[i - 1], hosts[i]);
    }
  }

  /** In every reachable state no session has more than sixteen links, and no id has been opened twice. */
  lemma LinksBounded(events: seq<Event>, hosts: seq<Host>, i: nat, sid: SessionId)
    requires Run(events, hosts) && i < |hosts|
    ensures |LinksOf(hosts[i], sid)| <= MAX_LINKS
    ensures forall a, b :: 0 <= a < b < |hosts[i].openedLinks| ==> hosts[i].openedLinks[a] != hosts[i].openedLinks[b]
  {
    RunLinks(events, hosts, i);
    assert LinksOk(LinksOf(hosts[i], sid), hosts[i].next);
  }

  /** The design's own link, waiting and unexpired. */
  predicate MayOpen(h: Host, designId: DesignId, linkId: nat) {
    designId in h.sessions && exists l :: l in LinksOf(h, h.sessions[designId]) && l.id == linkId && Unexpired(l, h.now)
  }

  lemma ApprovalOpens(h: Host, designId: DesignId, linkId: nat)
    requires Inv(h) && LinksInv(h)
    ensures Approve(h, designId, linkId).openedLinks ==
            (if MayOpen(h, designId, linkId) then h.openedLinks + [linkId] else h.openedLinks)
  {
    if designId in h.sessions {
      var links := LinksOf(h, h.sessions[designId]);
      assert LinksOk(links, h.next);
      var i := FindLink(links, linkId);
      if i >= 0 { assert links[i] in links; }
    }
  }

  /** A step opens the link approved, if that may open, and no other. */
  ghost predicate OpensRight(h: Host, e: Event, g: Host) {
    match e
    case ApproveCalled(designId, linkId) =>
      g.openedLinks == (if MayOpen(h, designId, linkId) then h.openedLinks + [linkId] else h.openedLinks)
    case _ => g.openedLinks == h.openedLinks
  }

  lemma LinkStepOpens(h: Host, e: Event, g: Host)
    requires Inv(h) && LinksInv(h) && LinkStep(h, e, g)
    ensures OpensRight(h, e, g)
  {
    match e {
      case ApproveCalled(designId, linkId) => ApprovalOpens(h, designId, linkId);
      case LinkRequested(_, _) =>
      case _ => assert LinksStay(h, g, 0);
    }
  }

  /** A step opens at most one link: the one approved, if and only if it waits for its design and has not expired. */
  lemma OpensIff(events: seq<Event>, hosts: seq<Host>, i: nat)
    requires Run(events, hosts) && i < |events|
    ensures OpensRight(hosts[i], events[i], hosts[i + 1])
  {
    RunKeeps(events, hosts, i);
    RunLinks(events, hosts, i);
    EachStep(hosts[i], events[i]);
    LinkStepOpens(hosts[i], events[i], hosts[i + 1]);
  }
}
