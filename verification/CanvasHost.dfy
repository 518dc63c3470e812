/**
 * The host as the objects it is made of: each method, up to its next await, changes the
 * fields in place and does what the state machine's step says.
 */
module CanvasHost {
  import opened Wrappers
  import opened CanvasBounds
  import opened DesignCanvas
  import CanvasSafety

  class CanvasSession {
    const id: SessionId
    const designId: DesignId
    var mode: Mode
    var view: Option<View>
    var attached: bool
    var active: Option<Route>
    var lastOrigins: seq<string>
    var requestId: int
    var rendererEpoch: nat
    var fenceToken: Option<Token>
    var requestedShow: Option<DesignCanvas.Show>
    var pendingLinks: seq<Link>
    var closing: bool

    constructor (id: SessionId, designId: DesignId, rendererEpoch: nat)
      ensures this.id == id && Value() == NewSession(designId, rendererEpoch)
    {
      this.id, this.designId, this.rendererEpoch := id, designId, rendererEpoch;
      mode, view, attached, active, lastOrigins := DenyAll, None, false, None, [];
      requestId, fenceToken, requestedShow, pendingLinks, closing := -1, None, None, [], false;
    }

    function Value(): Session
      reads this
    {
      Session(designId, mode, view, attached, active, lastOrigins, requestId, rendererEpoch, fenceToken,
              requestedShow, pendingLinks, closing)
    }

    method DropExpired(now: int)
      modifies this`pendingLinks
      ensures pendingLinks == UnexpiredLinks(old(pendingLinks), now)
    {
      var kept, i := [], 0;
      while i < |pendingLinks|
        invariant 0 <= i <= |pendingLinks|
        invariant kept + UnexpiredLinks(pendingLinks[i..], now) == UnexpiredLinks(pendingLinks, now)
      {
        assert pendingLinks[i..][1..] == pendingLinks[i + 1..];
        if pendingLinks[i].expiresAt >= now { kept := kept + [pendingLinks[i]]; }
        i := i + 1;
      }
      pendingLinks := kept;
    }

    method DropOldest()
      modifies this`pendingLinks
      ensures pendingLinks == NewestOf(old(pendingLinks))
    {
      ghost var links := pendingLinks;
      while |pendingLinks| > MAX_LINKS
        invariant |links| <= MAX_LINKS ==> pendingLinks == links
        invariant |links| > MAX_LINKS ==>
                    MAX_LINKS <= |pendingLinks| <= |links| && pendingLinks == links[|links| - |pendingLinks|..]
      {
        pendingLinks := pendingLinks[1..];
      }
    }

    /** First the expired links go, then the oldest while there are too many. */
    method PrunePendingLinks(now: int)
      modifies this`pendingLinks
      ensures pendingLinks == Prune(old(pendingLinks), now)
    {
      DropExpired(now);
      DropOldest();
    }

    method AddPending(link: Link, now: int)
      modifies this`pendingLinks
      ensures Value() == old(Value()).(pendingLinks := Prune(old(pendingLinks) + [link], now))
    {
      pendingLinks := pendingLinks + [link];
      PrunePendingLinks(now);
    }

    method RetainLatestExternalApproval(now: int)
      modifies this`pendingLinks
      ensures pendingLinks == RetainLatest(old(pendingLinks), now)
    {
      PrunePendingLinks(now);
      if pendingLinks != [] { pendingLinks := [pendingLinks[|pendingLinks| - 1]]; }
    }

    /** What `begin` does before its first await. */
    method Fence(token: Token, now: int)
      modifies this
      ensures Value() ==
              old(Value()).(fenceToken := Some(token), mode := DenyAll,
                            pendingLinks := RetainLatest(old(pendingLinks), now))
    {
      fenceToken := Some(token);
      mode := DenyAll;
      RetainLatestExternalApproval(now);
    }

    method AcceptRequest(epoch: nat, requestId: int) returns (accepted: bool)
      modifies this`requestId
      ensures accepted == Accepts(old(Value()), epoch, requestId)
      ensures Value() == if accepted then old(Value()).(requestId := requestId) else old(Value())
    {
      if requestId < 0 || requestId > MAX_SAFE_INTEGER { return false; }
      if rendererEpoch != epoch { return false; }
      if requestId < this.requestId { return false; }
      this.requestId := requestId;
      return true;
    }
  }

  class DesignCanvasHost {
    var sessions: map<DesignId, CanvasSession>
    var window: Option<Window>
    var rendererEpoch: nat
    /** The runtime's clock, and its supply of ids. */
    var now: int
    var next: nat
    /** Every session object made so far, the calls in flight, and the links opened. */
    ghost var known: map<SessionId, CanvasSession>
    ghost var calls: map<CallId, Call>
    ghost var openedLinks: seq<nat>

    constructor (now: int)
      ensures Valid() && Safe() && known == map[] && Now() == Initial(now)
    {
      sessions, window, rendererEpoch := map[], None, 0;
      this.now, next := now, 0;
      known, calls, openedLinks := map[], map[], [];
    }

    ghost predicate Valid()
      reads this`known, this`sessions, this`next
    {
      && (forall id :: id in known ==> known[id].id == id && id < next)
      && (forall d :: d in sessions ==>
            sessions[d].designId == d && sessions[d].id in known && known[sessions[d].id] == sessions[d])
    }

    ghost predicate Holds(s: CanvasSession)
      reads this`known
    {
      s.id in known && known[s.id] == s
    }

    ghost function States(): map<SessionId, Session>
      reads this`known, known.Values
    {
      map id | id in known :: known[id].Value()
    }

    ghost function Ids(): map<DesignId, SessionId>
      reads this`sessions
    {
      map d | d in sessions :: sessions[d].id
    }

    ghost function Now(): Host
      reads this, known.Values
    {
      Host(States(), Ids(), window, rendererEpoch, now, calls, openedLinks, next)
    }

    /** What every step keeps, of this host and its sessions as they stand. */
    ghost predicate Safe()
      reads this, known.Values
    {
      CanvasSafety.Inv(Now())
    }

    /**
     * In a safe host at most one session's view is attached: that of a session whose design is
     * mapped to it and requested.
     */
    lemma OneAttached(s: CanvasSession, t: CanvasSession)
      requires Valid() && Safe() && Holds(s) && Holds(t) && s.attached && t.attached
      ensures s == t && s.view.Some? && s.designId in sessions && sessions[s.designId] == s
      ensures s.requestedShow.Some? && s.requestedShow.value.designId == s.designId
    {
      assert States()[s.id] == s.Value() && States()[t.id] == t.Value();
      assert CanvasSafety.RequestedIn(Now(), s.id) && CanvasSafety.RequestedIn(Now(), t.id);
    }

    // ----- One session -----

    /** Where no other session has changed, the states are as before but for this one. */
    twostate lemma OneChanged(s: CanvasSession)
      requires old(Valid()) && old(Holds(s)) && known == old(known)
      requires forall t :: t in old(known.Values) && t != s ==> t.Value() == old(t.Value())
      ensures States() == old(States())[s.id := s.Value()]
    {
    }

    /** The window as `Put` leaves it when the session goes from `before` to `after`. */
    twostate predicate Released(before: Session, after: Session)
      reads this`window
    {
      window == WithoutChildren(old(window), AttachedView(before) - AttachedView(after))
    }

    method DestroyView(s: CanvasSession)
      modifies this`window, s`attached, s`view
      ensures s.Value() == DesignCanvas.DestroyView(old(s.Value())) && Released(old(s.Value()), s.Value())
    {
      NothingGone(window);
      ghost var views := AttachedView(s.Value());
      assert views - {} == views && views - views == {};
      if s.view.None? { return; }
      if s.attached && LiveWindow(window) {
        window := Some(window.value.(children := window.value.children - {s.view.value.id}));
      }
      s.attached := false;
      s.view := None;
    }

    method DeactivateCanvas(s: CanvasSession, preserveExternalApproval: bool)
      modifies this`window, s
      ensures s.Value() == Deactivate(old(s.Value()), preserveExternalApproval, now) &&
              Released(old(s.Value()), s.Value())
    {
      s.requestedShow := None;
      s.mode := DenyAll;
      if preserveExternalApproval { s.RetainLatestExternalApproval(now); } else { s.pendingLinks := []; }
      DestroyView(s);
    }

    method AttachView(s: CanvasSession)
      modifies this`window, s`attached
      ensures s.Value() == if LiveWindow(old(window)) && s.view.Some? then old(s.Value()).(attached := true)
              else old(s.Value())
      ensures window == if !LiveWindow(old(window)) || s.view.None? || old(s.attached) then old(window)
                        else Some(old(window).value.(children := old(window).value.children + {s.view.value.id}))
    {
      if !LiveWindow(window) || s.view.None? { return; }
      if !s.attached {
        window := Some(window.value.(children := window.value.children + {s.view.value.id}));
        s.attached := true;
      }
    }

    method ApplyBounds(s: CanvasSession, bounds: Bounds) returns (applied: bool)
      requires Valid() && Holds(s)
      modifies this`window, s
      ensures Valid() && applied == Placed(old(window), old(s.Value()), bounds).Some?
      ensures Now() == if applied then old(Now()) else Put(old(Now()), s.id, Deactivate(old(s.Value()), true, now))
    {
      if !LiveWindow(window) || s.view.None? {
        Deactivated(s, true);
        return false;
      }
      var normalized := NormalizeBounds(bounds, window.value.zoom, window.value.width, window.value.height);
      if normalized.None? {
        Deactivated(s, true);
        return false;
      }
      return true;
    }

    // ----- Every session -----

    /** A loop over the sessions has come to all in `targets` but those in `left`, and changed those in `done`. */
    ghost predicate Remaining(h: Host, left: set<CanvasSession>, done: set<SessionId>, targets: set<SessionId>)
      reads this`sessions
    {
      && h.sessions == Ids() && left <= sessions.Values && done <= targets
      && (forall s :: s in left ==> s.id !in done)
      && (forall s :: s in sessions.Values && s !in left && s.id in targets ==> s.id in done)
    }

    ghost predicate Looping(h: Host, left: set<CanvasSession>, done: set<SessionId>, targets: set<SessionId>,
                            change: Change, drops: bool)
      reads this`known, this`sessions, this`next, this`window, known.Values
    {
      && Valid() && Remaining(h, left, done, targets) && States() == SetSome(h.states, done, change)
      && window == (if drops then WithoutChildren(h.window, ViewsOf(h, done)) else h.window)
    }

    lemma StartLoop(h: Host, targets: set<SessionId>, change: Change, drops: bool)
      requires Valid() && h == Now()
      ensures Looping(h, sessions.Values, {}, targets, change, drops)
    {
      assert ViewsOf(h, {}) == {};
      NothingGone(h.window);
      assert States() == SetSome(h.states, {}, change);
    }

    /** The session the loop comes to is as it was before the loop. */
    lemma NextOne(h: Host, s: CanvasSession, left: set<CanvasSession>, done: set<SessionId>, targets: set<SessionId>,
                  change: Change, drops: bool)
      requires Looping(h, left, done, targets, change, drops) && s in left
      ensures Holds(s) && s.id in Mapped(h) && s.id in h.states && h.states[s.id] == s.Value()
    {
      var d :| d in sessions && sessions[d] == s;
      assert h.sessions[d] == s.id;
      assert States()[s.id] == s.Value();
    }

    lemma Skips(h: Host, s: CanvasSession, left: set<CanvasSession>, done: set<SessionId>, targets: set<SessionId>,
                change: Change, drops: bool)
      requires Looping(h, left, done, targets, change, drops) && s in left && s.id !in targets
      ensures Looping(h, left - {s}, done, targets, change, drops)
    {
    }

    lemma LoopEnds(h: Host, done: set<SessionId>, targets: set<SessionId>, change: Change, drops: bool)
      requires Looping(h, {}, done, targets, change, drops) && targets <= Mapped(h)
      ensures done == targets
    {
      forall id | id in targets ensures id in done {
        var d :| d in h.sessions && h.sessions[d] == id;
        assert sessions[d] in sessions.Values;
      }
    }

    lemma LoopDone(h: Host, done: set<SessionId>, targets: set<SessionId>, change: Change, drops: bool)
      requires Looping(h, {}, done, targets, change, drops) && targets <= Mapped(h)
      requires Now() == h.(states := States(), window := window)
      ensures Now() == h.(states := SetSome(h.states, targets, change),
                          window := if drops then WithoutChildren(h.window, ViewsOf(h, targets)) else h.window)
    {
      LoopEnds(h, done, targets, change, drops);
    }

    /** The loop of `deactivateOtherDesigns` and `handleGenerationUnavailable` comes to a session. */
    method DeactivateIf(s: CanvasSession, gives: bool, ghost h: Host, ghost left: set<CanvasSession>,
                        ghost done: set<SessionId>, ghost targets: set<SessionId>)
        returns (ghost more: set<SessionId>)
      requires Looping(h, left, done, targets, Deactivates(true, now), true) && s in left &&
               (gives <==> s.id in targets)
      modifies this`window, s
      ensures Looping(h, left - {s}, more, targets, Deactivates(true, now), true)
    {
      more := done;
      if gives {
        NextOne(h, s, left, done, targets, Deactivates(true, now), true);
        DeactivateCanvas(s, true);
        OneChanged(s);
        SetOneMore(h, done, s.id, Deactivates(true, now));
        more := done + {s.id};
      } else {
        Skips(h, s, left, done, targets, Deactivates(true, now), true);
      }
    }

    method DeactivateOtherDesigns(selected: DesignId)
      requires Valid()
      modifies this`window, known.Values
      ensures Valid() && Now() == DeactivateAll(old(Now()), OtherSessions(old(Now()), selected), true)
    {
      ghost var h, done := Now(), {};
      ghost var targets := OtherSessions(h, selected);
      StartLoop(h, targets, Deactivates(true, now), true);
      var left := sessions.Values;
      while left != {}
        invariant Looping(h, left, done, targets, Deactivates(true, now), true)
      {
        var s :| s in left;
        NextOne(h, s, left, done, targets, Deactivates(true, now), true);
        done := DeactivateIf(s, GivesWay(s.Value(), selected), h, left, done, targets);
        left := left - {s};
      }
      LoopDone(h, done, targets, Deactivates(true, now), true);
      DeactivatesAll(h, targets, true);
    }

    method HandleGenerationUnavailable(generationId: string)
      requires Valid()
      modifies this`window, known.Values
      ensures Valid() && Now() == DeactivateAll(old(Now()), SessionsOf(old(Now()), generationId), true)
      ensures old(Safe()) ==> Safe()
    {
      GenerationKept(Now(), generationId);
      DeactivateGeneration(generationId);
    }

    method DeactivateGeneration(generationId: string)
      requires Valid()
      modifies this`window, known.Values
      ensures Valid() && Now() == DeactivateAll(old(Now()), SessionsOf(old(Now()), generationId), true)
    {
      ghost var h, done := Now(), {};
      ghost var targets := SessionsOf(h, generationId);
      StartLoop(h, targets, Deactivates(true, now), true);
      var left := sessions.Values;
      while left != {}
        invariant Looping(h, left, done, targets, Deactivates(true, now), true)
      {
        var s :| s in left;
        NextOne(h, s, left, done, targets, Deactivates(true, now), true);
        done := DeactivateIf(s, IsActive(s.Value(), generationId), h, left, done, targets);
        left := left - {s};
      }
      LoopDone(h, done, targets, Deactivates(true, now), true);
      DeactivatesAll(h, targets, true);
    }

    method ResetState(s: CanvasSession)
      modifies this`window, s
      ensures s.Value() == Apply(Resets(rendererEpoch, now), old(s.Value())) && Released(old(s.Value()), s.Value())
    {
      s.rendererEpoch := rendererEpoch;
      s.requestId := -1;
      DeactivateCanvas(s, false);
    }

    /** The loop of `onRendererReset` comes to a session. */
    method ResetSession(s: CanvasSession, ghost h: Host, ghost left: set<CanvasSession>, ghost done: set<SessionId>)
      requires Looping(h, left, done, Mapped(h), Resets(rendererEpoch, now), true) && s in left
      modifies this`window, s
      ensures Looping(h, left - {s}, done + {s.id}, Mapped(h), Resets(rendererEpoch, now), true)
    {
      NextOne(h, s, left, done, Mapped(h), Resets(rendererEpoch, now), true);
      ResetState(s);
      OneChanged(s);
      SetOneMore(h, done, s.id, Resets(rendererEpoch, now));
    }

    method ResetSessions()
      requires Valid()
      modifies this`window, known.Values
      ensures Valid() && Now() == AllReset(old(Now()))
    {
      ghost var h, done := Now(), {};
      StartLoop(h, Mapped(h), Resets(rendererEpoch, now), true);
      var left := sessions.Values;
      while left != {}
        invariant Looping(h, left, done, Mapped(h), Resets(rendererEpoch, now), true)
      {
        var s :| s in left;
        ResetSession(s, h, left, done);
        done := done + {s.id};
        left := left - {s};
      }
      LoopDone(h, done, Mapped(h), Resets(rendererEpoch, now), true);
    }

    method OnRendererReset()
      requires Valid()
      modifies this`window, this`rendererEpoch, known.Values
      ensures Valid() && Now() == Step(old(Now()), RendererReset)
      ensures old(Safe()) ==> Safe()
    {
      Kept(Now(), RendererReset);
      ghost var h := Now();
      SetWindow(window, rendererEpoch + 1);
      ResetIs(h, Now());
      ResetSessions();
    }

    method DetachState(s: CanvasSession)
      modifies this`window, s
      ensures s.Value() == Apply(Detaches(now), old(s.Value())) && Released(old(s.Value()), s.Value())
    {
      s.fenceToken := None;
      DeactivateCanvas(s, false);
    }

    /** The loop of `detachWindow` comes to a session. */
    method DetachSession(s: CanvasSession, ghost h: Host, ghost left: set<CanvasSession>, ghost done: set<SessionId>)
      requires Looping(h, left, done, Mapped(h), Detaches(now), true) && s in left
      modifies this`window, s
      ensures Looping(h, left - {s}, done + {s.id}, Mapped(h), Detaches(now), true)
    {
      NextOne(h, s, left, done, Mapped(h), Detaches(now), true);
      DetachState(s);
      OneChanged(s);
      SetOneMore(h, done, s.id, Detaches(now));
    }

    method SetWindow(w: Option<Window>, epoch: nat)
      requires Valid()
      modifies this`window, this`rendererEpoch
      ensures Valid() && Now() == old(Now()).(window := w, rendererEpoch := epoch)
    {
      window, rendererEpoch := w, epoch;
    }

    method DetachWindow()
      requires Valid()
      modifies this`window, known.Values
      ensures Valid() && Now() == Detach(old(Now()))
      ensures old(Safe()) ==> Safe()
    {
      DetachKept(Now());
      DetachSessions();
    }

    method LoseWindow()
      requires Valid()
      modifies this`window
      ensures Valid() && Now() == old(Now()).(window := None)
    {
      window := None;
    }

    method DetachSessions()
      requires Valid()
      modifies this`window, known.Values
      ensures Valid() && Now() == Detach(old(Now()))
    {
      ghost var done := {};
      LoseWindow();
      ghost var h := Now();
      StartLoop(h, Mapped(h), Detaches(now), true);
      var left := sessions.Values;
      while left != {}
        invariant Looping(h, left, done, Mapped(h), Detaches(now), true)
      {
        var s :| s in left;
        DetachSession(s, h, left, done);
        done := done + {s.id};
        left := left - {s};
      }
      LoopDone(h, done, Mapped(h), Detaches(now), true);
      DetachIs(old(Now()), h);
    }

    method JoinState(s: CanvasSession)
      modifies s
      ensures s.Value() == Apply(Joins(rendererEpoch), old(s.Value()))
    {
      s.rendererEpoch := rendererEpoch;
      s.requestId := -1;
    }

    /** The loop of `attachWindow` comes to a session. */
    method JoinEpoch(s: CanvasSession, ghost h: Host, ghost left: set<CanvasSession>, ghost done: set<SessionId>)
      requires Looping(h, left, done, Mapped(h), Joins(rendererEpoch), false) && s in left
      modifies s
      ensures Looping(h, left - {s}, done + {s.id}, Mapped(h), Joins(rendererEpoch), false)
    {
      NextOne(h, s, left, done, Mapped(h), Joins(rendererEpoch), false);
      JoinState(s);
      OneChanged(s);
      SetOneMore(h, done, s.id, Joins(rendererEpoch));
    }

    method JoinSessions()
      requires Valid()
      modifies known.Values
      ensures Valid() && Now() == AllJoined(old(Now()))
    {
      ghost var h, done := Now(), {};
      StartLoop(h, Mapped(h), Joins(rendererEpoch), false);
      var left := sessions.Values;
      while left != {}
        invariant Looping(h, left, done, Mapped(h), Joins(rendererEpoch), false)
      {
        var s :| s in left;
        JoinEpoch(s, h, left, done);
        done := done + {s.id};
        left := left - {s};
      }
      LoopDone(h, done, Mapped(h), Joins(rendererEpoch), false);
    }

    method AttachWindow(id: nat, zoom: Number, width: real, height: real)
      requires Valid()
      modifies this`window, this`rendererEpoch, known.Values
      ensures Valid() && Now() == Step(old(Now()), Event.AttachWindow(id, zoom, width, height))
      ensures old(Safe()) ==> Safe()
    {
      AttachStep(Now(), id, zoom, width, height);
      if window.None? || window.value.id != id { TakeWindow(Window(id, false, zoom, width, height, {})); }
    }

    method TakeWindow(taken: Window)
      requires Valid()
      modifies this`window, this`rendererEpoch, known.Values
      ensures Valid() && Now() == NextEpoch(Detach(old(Now()))).(window := Some(taken))
    {
      DetachWindow();
      ghost var off := Now();
      SetWindow(Some(taken), rendererEpoch + 1);
      AttachIs(off, Now());
      JoinSessions();
    }

    // ----- Requests -----

    method MakeSession(designId: DesignId) returns (made: CanvasSession)
      requires Valid() && designId !in sessions
      modifies this`sessions, this`known, this`next
      ensures Valid() && Holds(made) && known.Values == old(known.Values) + {made} && fresh(made) &&
              made.designId == designId
      ensures Now() == WithSession(old(Now()), designId) && made.id == old(next)
    {
      made := new CanvasSession(next, designId, rendererEpoch);
      Register(made);
      ValuesWith(old(known), made.id, made);
    }

    method Register(made: CanvasSession)
      requires Valid() && made.designId !in sessions && made.id == next && made !in known.Values
      modifies this`sessions, this`known, this`next
      ensures Valid() && known == old(known)[made.id := made]
      ensures Now() == old(Now()).(states := old(States())[made.id := made.Value()],
                                   sessions := old(Ids())[made.designId := made.id], next := old(next) + 1)
    {
      Know(made);
      MapDesign(made);
    }

    method Know(made: CanvasSession)
      requires Valid() && made.id == next && made !in known.Values
      modifies this`known, this`next
      ensures Valid() && known == old(known)[made.id := made]
      ensures Now() == old(Now()).(states := old(States())[made.id := made.Value()], next := old(next) + 1)
    {
      known := known[next := made];
      next := next + 1;
      assert States() == old(States())[made.id := made.Value()];
    }

    method MapDesign(s: CanvasSession)
      requires Valid() && Holds(s)
      modifies this`sessions
      ensures Valid() && Now() == old(Now()).(sessions := old(Ids())[s.designId := s.id])
    {
      sessions := sessions[s.designId := s];
      assert Ids() == old(Ids())[s.designId := s.id];
    }

    method RequireSession(designId: DesignId) returns (state: Option<CanvasSession>)
      requires Valid()
      modifies this`sessions, this`known, this`next
      ensures Valid() && old(known.Values) <= known.Values && fresh(known.Values - old(known.Values))
      ensures state.None? ==> DesignCanvas.RequireSession(old(Now()), designId).None? && Now() == old(Now())
      ensures state.Some? ==>
                && DesignCanvas.RequireSession(old(Now()), designId) == Some(state.value.id)
                && Holds(state.value) && state.value.designId == designId && Now() == WithSession(old(Now()), designId)
    {
      if designId !in sessions {
        var made := MakeSession(designId);
        return Some(made);
      }
      assert States()[sessions[designId].id] == sessions[designId].Value();
      if sessions[designId].closing { return None; }
      return Some(sessions[designId]);
    }

    method Deactivated(s: CanvasSession, preserveExternalApproval: bool)
      requires Valid() && Holds(s)
      modifies this`window, s
      ensures Valid() && Now() == Put(old(Now()), s.id, Deactivate(old(s.Value()), preserveExternalApproval, now))
    {
      DeactivateCanvas(s, preserveExternalApproval);
      OneChanged(s);
    }

    method Attached(s: CanvasSession)
      requires Valid() && Holds(s)
      modifies this`window, s`attached
      ensures Valid() && Now() == Attach(old(Now()), s.id)
    {
      AttachView(s);
      OneChanged(s);
    }

    /** `applyBounds` and, where it places the view, `attachView`. */
    method PlaceAndAttach(s: CanvasSession, bounds: Bounds)
      requires Valid() && Holds(s)
      modifies this`window, s
      ensures Valid() && Now() == DesignCanvas.PlaceAndAttach(old(Now()), s.id, bounds)
    {
      assert States()[s.id] == s.Value();
      var applied := ApplyBounds(s, bounds);
      if applied { Attached(s); }
    }

    method TakeId() returns (id: nat)
      requires Valid()
      modifies this`next
      ensures Valid() && Now() == old(Now()).(next := old(next) + 1) && id == old(next)
    {
      id := next;
      next := next + 1;
    }

    /** A new fence: the network is denied and only the newest link waits. */
    method TakeFence(s: CanvasSession) returns (token: Token)
      requires Valid() && Holds(s)
      modifies this`next, s
      ensures Valid() && Now() == DesignCanvas.Fence(old(Now()), s.id) && token == old(next)
    {
      token := TakeId();
      s.Fence(token, now);
      OneChanged(s);
    }

    method StartCall(ghost c: Call)
      requires Valid()
      modifies this`next, this`calls
      ensures Valid() && Now() == NewCall(old(Now()), c)
    {
      calls := calls[next := c];
      next := next + 1;
    }

    /** `begin` on its session, up to its first await. */
    method BeginOn(s: CanvasSession, candidate: Identity, replaced: Option<Identity>, byShow: bool)
      requires Valid() && Holds(s)
      modifies this`next, this`calls, s
      ensures Valid() && Now() == StartBegin(old(Now()), s.id, candidate, replaced, byShow)
    {
      var token := TakeFence(s);
      StartCall(Beginning(s.id, token, candidate, replaced, byShow, None));
    }

    method Begin(designId: DesignId, candidate: Identity, replaced: Option<Identity>)
      requires Valid()
      modifies this, known.Values
      ensures Valid() && fresh(known.Values - old(known.Values)) &&
              Now() == BeginCutover(old(Now()), designId, candidate, replaced)
      ensures old(Safe()) ==> Safe()
    {
      BeginKept(Now(), designId, candidate, replaced);
      BeginWhereValid(designId, candidate, replaced);
    }

    method BeginWhereValid(designId: DesignId, candidate: Identity, replaced: Option<Identity>)
      requires Valid()
      modifies this, known.Values
      ensures Valid() && fresh(known.Values - old(known.Values)) &&
              Now() == BeginCutover(old(Now()), designId, candidate, replaced)
    {
      if !ValidCutover(candidate, replaced) { return; }
      var state := RequireSession(designId);
      if state.Some? { BeginOn(state.value, candidate, replaced, false); }
    }

    method Accept(s: CanvasSession, requestId: int) returns (accepted: bool)
      requires Valid() && Holds(s)
      modifies s`requestId
      ensures Valid() && accepted == Accepts(old(s.Value()), rendererEpoch, requestId)
      ensures Now() == if accepted
              then old(Now()).(states := old(States())[s.id := old(s.Value()).(requestId := requestId)]) else old(Now())
    {
      accepted := s.AcceptRequest(rendererEpoch, requestId);
      OneChanged(s);
    }

    /** An accepted request: other designs give way, and it is the one requested. */
    method RecordRequest(s: CanvasSession, input: DesignCanvas.Show, ghost ready: Host)
      requires Valid() && Holds(s) && s.designId == input.designId && s.id in ready.states &&
               ready.states[s.id].designId == input.designId
      requires Now() == ready.(states := ready.states[s.id := ready.states[s.id].(requestId := input.requestId)])
      modifies this`window, known.Values
      ensures Valid() && Now() == Request(ready, s.id, input)
    {
      RequestIs(ready, Now(), s.id, input);
      DeactivateOtherDesigns(input.designId);
      SetRequested(s, input);
    }

    method SetRequested(s: CanvasSession, input: DesignCanvas.Show)
      requires Valid() && Holds(s)
      modifies s`requestedShow
      ensures Valid() &&
              Now() == old(Now()).(states := old(States())[s.id := old(States())[s.id].(requestedShow := Some(input))])
    {
      assert States()[s.id] == s.Value();
      s.requestedShow := Some(input);
      OneChanged(s);
    }

    method PresentRequested(s: CanvasSession, input: DesignCanvas.Show)
      requires Valid() && Holds(s)
      modifies this, s
      ensures Valid() && known == old(known) && Now() == Present(old(Now()), s.id, input)
    {
      assert States()[s.id] == s.Value();
      if s.fenceToken.Some? { return; }
      if !HasActiveView(s.Value(), input.identity) {
        var replaced := if s.active.Some? then Some(s.active.value.identity) else None;
        if ValidCutover(input.identity, replaced) { BeginOn(s, input.identity, replaced, true); }
        return;
      }
      PlaceAndAttach(s, input.bounds);
    }

    /** `show`, up to its first await. */
    method Show(input: DesignCanvas.Show)
      requires Valid()
      modifies this, known.Values
      ensures Valid() && fresh(known.Values - old(known.Values)) && Now() == ShowDesign(old(Now()), input)
      ensures old(Safe()) ==> Safe()
    {
      ShowKept(Now(), input);
      ShowWhereAccepted(input);
    }

    method ShowWhereAccepted(input: DesignCanvas.Show)
      requires Valid()
      modifies this, known.Values
      ensures Valid() && fresh(known.Values - old(known.Values)) && Now() == ShowDesign(old(Now()), input)
    {
      if !ValidIdentity(input.identity) { return; }
      var state := RequireSession(input.designId);
      if state.None? { return; }
      ShowIn(state.value, input);
    }

    method ShowIn(s: CanvasSession, input: DesignCanvas.Show)
      requires Valid() && Holds(s) && s.designId == input.designId
      modifies this, known.Values
      ensures Valid() && known == old(known)
      ensures Now() == if Accepts(old(s.Value()), old(rendererEpoch), input.requestId)
              then Present(Request(old(Now()), s.id, input), s.id, input) else old(Now())
    {
      assert States()[s.id] == s.Value();
      var accepted := Accept(s, input.requestId);
      if !accepted { return; }
      RecordRequest(s, input, old(Now()));
      PresentRequested(s, input);
    }

    method Hide(designId: DesignId, requestId: int)
      requires Valid()
      modifies this`window, known.Values
      ensures Valid() && Now() == DesignCanvas.Hide(old(Now()), designId, requestId)
      ensures old(Safe()) ==> Safe()
    {
      HideKept(Now(), designId, requestId);
      if designId !in sessions { return; }
      var s := sessions[designId];
      assert States()[s.id] == s.Value();
      var accepted := Accept(s, requestId);
      if accepted {
        assert States()[s.id] == s.Value();
        Deactivated(s, true);
        HideIs(old(Now()), Now(), designId, requestId);
      }
    }

    method Refresh(designId: DesignId, generationId: string, requestId: int)
      requires Valid()
      modifies this, known.Values
      ensures Valid() && fresh(known.Values - old(known.Values)) &&
              Now() == DesignCanvas.Refresh(old(Now()), designId, generationId, requestId)
      ensures old(Safe()) ==> Safe()
    {
      RefreshKept(Now(), designId, generationId, requestId);
      RefreshWhereAccepted(designId, generationId, requestId);
    }

    method RefreshWhereAccepted(designId: DesignId, generationId: string, requestId: int)
      requires Valid()
      modifies this, known.Values
      ensures Valid() && fresh(known.Values - old(known.Values)) &&
              Now() == DesignCanvas.Refresh(old(Now()), designId, generationId, requestId)
    {
      if designId !in sessions { return; }
      var s := sessions[designId];
      assert States()[s.id] == s.Value();
      var accepted := Accept(s, requestId);
      if !accepted { return; }
      assert States()[s.id] == s.Value();
      if s.requestedShow.None? || s.requestedShow.value.identity.generationId != generationId { return; }
      if s.fenceToken.Some? { return; }
      if s.view.None? || s.view.value.destroyed {
        Show(s.requestedShow.value.(requestId := requestId));
        return;
      }
      if s.active.None? { return; }
      StartCall(Reloading(s.id, s.view.value.id, s.active.value.identity.generationId));
    }

    method MarkClosing(s: CanvasSession)
      requires Valid() && Holds(s)
      modifies this`window, s
      ensures Valid() && Now() == Put(old(Now()), s.id, Deactivate(old(s.Value()), false, now).(closing := true))
    {
      DeactivateCanvas(s, false);
      s.closing := true;
      OneChanged(s);
    }

    /** `close`, up to its first await; a second call joins the first. */
    method Close(designId: DesignId)
      requires Valid()
      modifies this`window, this`next, this`calls, known.Values
      ensures Valid() && Now() == DesignCanvas.Close(old(Now()), designId)
      ensures old(Safe()) ==> Safe()
    {
      CloseKept(Now(), designId);
      if designId !in sessions { return; }
      var s := sessions[designId];
      assert States()[s.id] == s.Value();
      if s.closing { return; }
      MarkClosing(s);
      StartCall(Closing(s.id, None));
    }

    method TakeLink(s: CanvasSession, i: nat)
      requires Valid() && Holds(s) && i < |s.pendingLinks|
      modifies s`pendingLinks
      ensures Valid()
      ensures Now() ==
              old(Now()).(states :=
                          old(States())[s.id :=
                                        old(s.Value()).(pendingLinks :=
                                                        old(s.pendingLinks[..i] + s.pendingLinks[i + 1..]))])
    {
      s.pendingLinks := s.pendingLinks[..i] + s.pendingLinks[i + 1..];
      OneChanged(s);
    }

    method Open(linkId: nat)
      requires Valid()
      modifies this`openedLinks
      ensures Valid() && Now() == old(Now()).(openedLinks := old(openedLinks) + [linkId])
    {
      openedLinks := openedLinks + [linkId];
    }

    method ApproveExternal(designId: DesignId, pendingId: nat) returns (opens: bool)
      requires Valid()
      modifies this`openedLinks, known.Values
      ensures Valid() && Now() == Approve(old(Now()), designId, pendingId)
      ensures openedLinks == if opens then old(openedLinks) + [pendingId] else old(openedLinks)
      ensures old(Safe()) ==> Safe()
    {
      ApproveKept(Now(), designId, pendingId);
      opens := UseLink(designId, pendingId);
    }

    /** The link waits no more, and is opened unless it has expired. */
    method UseLink(designId: DesignId, pendingId: nat) returns (opens: bool)
      requires Valid()
      modifies this`openedLinks, known.Values
      ensures Valid() && Now() == Approve(old(Now()), designId, pendingId)
      ensures openedLinks == if opens then old(openedLinks) + [pendingId] else old(openedLinks)
    {
      if designId !in sessions { return false; }
      var s := sessions[designId];
      assert States()[s.id] == s.Value();
      var i := FindLink(s.pendingLinks, pendingId);
      if i < 0 { return false; }
      var pending := s.pendingLinks[i];
      TakeLink(s, i);
      if pending.expiresAt < now { return false; }
      Open(pendingId);
      return true;
    }

    method CreateExternalRequest(s: CanvasSession, lifetime: int)
      requires Valid() && Holds(s)
      modifies this`next, s`pendingLinks
      ensures Valid() && Now() == RequestLink(old(Now()), s.id, lifetime)
      ensures old(Safe()) ==> Safe()
    {
      LinkKept(Now(), s.id, lifetime);
      AddLink(s, lifetime);
    }

    method AddLink(s: CanvasSession, lifetime: int)
      requires Valid() && Holds(s)
      modifies this`next, s`pendingLinks
      ensures Valid() && Now() == RequestLink(old(Now()), s.id, lifetime)
    {
      assert States()[s.id] == s.Value();
      var id := TakeId();
      assert States()[s.id] == s.Value();
      PendLink(s, Link(id, now + lifetime));
    }

    method PendLink(s: CanvasSession, link: Link)
      requires Valid() && Holds(s)
      modifies s`pendingLinks
      ensures Valid()
      ensures Now() ==
              old(Now()).(states :=
                          old(States())[s.id :=
                                        old(s.Value()).(pendingLinks := Prune(old(s.pendingLinks) + [link], now))])
    {
      s.AddPending(link, now);
      OneChanged(s);
    }

    // ----- Calls going on after an await -----

    method SetCall(ghost id: CallId, ghost c: Call)
      requires Valid()
      modifies this`calls
      ensures Valid() && Now() == old(Now()).(calls := old(calls)[id := c])
    {
      calls := calls[id := c];
    }

    method End(ghost id: CallId)
      requires Valid()
      modifies this`calls
      ensures Valid() && Now() == EndCall(old(Now()), id)
    {
      calls := calls - {id};
    }

    method ReleaseFence(s: CanvasSession, token: Token)
      requires Valid() && Holds(s)
      modifies s`fenceToken
      ensures Valid() && Now() == WithoutFence(old(Now()), s.id, token)
    {
      if s.fenceToken == Some(token) { s.fenceToken := None; }
      OneChanged(s);
    }

    method Destroyed(s: CanvasSession)
      requires Valid() && Holds(s)
      modifies this`window, s
      ensures Valid() && Now() == Put(old(Now()), s.id, DesignCanvas.DestroyView(old(s.Value())))
    {
      DestroyView(s);
      OneChanged(s);
    }

    method FailBegin(s: CanvasSession, token: Token, ghost id: CallId)
      requires Valid() && Holds(s) && id in calls && calls[id].Beginning? && calls[id].sid == s.id &&
               calls[id].token == token
      modifies this`calls, s`fenceToken
      ensures Valid() && Now() == BeginFails(old(Now()), id)
    {
      ReleaseFence(s, token);
      End(id);
    }

    method ClearNextOrigin(s: CanvasSession, token: Token, left: nat, ghost id: CallId)
      requires Valid() && Holds(s) && id in calls && calls[id].Beginning? && calls[id].sid == s.id &&
               calls[id].token == token
      modifies this`calls, s`fenceToken
      ensures Valid() && Now() == ClearOrigins(old(Now()), id, left)
    {
      ghost var c := calls[id];
      assert States()[s.id] == s.Value();
      if left > 0 {
        SetCall(id, c.(originsLeft := Some(left)));
      } else if s.fenceToken != Some(token) {
        FailBegin(s, token, id);
      } else {
        SetCall(id, Leased(s.id, token, c.candidate, c.replaced, c.byShow));
      }
    }

    /** `begin` goes on: its connections have closed, or one more origin is cleared. */
    method ContinueBegin(s: CanvasSession, token: Token, originsLeft: Option<nat>, outcome: Outcome, ghost id: CallId)
      requires Valid() && Holds(s) && id in calls && calls[id].Beginning? && calls[id].sid == s.id &&
               calls[id].token == token
      requires calls[id].originsLeft == originsLeft
      modifies this`window, this`calls, s
      ensures Valid() && Now() == ResumeBegin(old(Now()), id, outcome)
      ensures old(Safe()) ==> Safe()
    {
      BeginningKept(Now(), id, outcome);
      assert States()[s.id] == s.Value();
      if outcome.Rejected? {
        FailBegin(s, token, id);
      } else if originsLeft.Some? {
        ClearNextOrigin(s, token, OneLess(originsLeft.value), id);
      } else {
        Destroyed(s);
        ClearNextOrigin(s, token, |s.lastOrigins|, id);
      }
    }

    /** `activateRequestedRoute` up to its first await. */
    method ActivateRequestedRoute(s: CanvasSession, identity: Identity, token: Token) returns (stage: Stage)
      ensures stage == FirstStage(s.Value(), token, identity)
    {
      if s.fenceToken != Some(token) { return Returning(false); }
      if !RequestedFor(s.Value(), identity) { return Returning(true); }
      return Resolving;
    }

    method Commit(s: CanvasSession, token: Token, candidate: Identity, ghost lease: CallId)
      requires Valid() && Holds(s) && lease in calls && calls[lease].Leased?
      requires calls[lease].sid == s.id && calls[lease].token == token && calls[lease].candidate == candidate
      modifies this`next, this`calls
      ensures Valid() && Now() == DesignCanvas.Commit(old(Now()), lease)
      ensures old(Safe()) ==> Safe()
    {
      CommitKept(Now(), lease);
      assert States()[s.id] == s.Value();
      var stage := ActivateRequestedRoute(s, candidate, token);
      StartCall(Activating(s.id, token, candidate, calls[lease].byShow, stage));
    }

    method ForgetActive(s: CanvasSession)
      requires Valid() && Holds(s)
      modifies s`active, s`fenceToken
      ensures Valid() &&
              Now() == old(Now()).(states := old(States())[s.id := old(s.Value()).(active := None, fenceToken := None)])
    {
      s.active := None;
      s.fenceToken := None;
      OneChanged(s);
    }

    method Rollback(s: CanvasSession, token: Token, replaced: Option<Identity>, ghost lease: CallId)
      requires Valid() && Holds(s) && lease in calls && calls[lease].Leased?
      requires calls[lease].sid == s.id && calls[lease].token == token && calls[lease].replaced == replaced
      modifies this`next, this`calls, s
      ensures Valid() && Now() == DesignCanvas.Rollback(old(Now()), lease)
      ensures old(Safe()) ==> Safe()
    {
      RollbackKept(Now(), lease);
      ghost var c := calls[lease];
      assert States()[s.id] == s.Value();
      if replaced.Some? {
        var stage := ActivateRequestedRoute(s, replaced.value, token);
        StartCall(Activating(s.id, token, replaced.value, c.byShow, stage));
      } else if s.fenceToken != Some(token) {
        StartCall(Activating(s.id, token, c.candidate, false, Returning(false)));
      } else {
        ForgetActive(s);
      }
    }

    /** A show's own lease is committed as soon as it has it. */
    method CommitShow(s: CanvasSession, token: Token, candidate: Identity, outcome: Outcome, ghost id: CallId)
      requires Valid() && Holds(s) && id in calls && calls[id].Leased? && calls[id].byShow
      requires calls[id].sid == s.id && calls[id].token == token && calls[id].candidate == candidate
      modifies this`calls
      ensures Valid() && Now() == Step(old(Now()), Resumed(id, outcome))
      ensures old(Safe()) ==> Safe()
    {
      assert States()[s.id] == s.Value();
      CommitStep(Now(), id, outcome);
      var stage := ActivateRequestedRoute(s, candidate, token);
      SetCall(id, Activating(s.id, token, candidate, true, stage));
    }

    /** The call is at this stage of activating the session. */
    ghost predicate At(id: CallId, s: CanvasSession, token: Token, identity: Identity, stage: Stage)
      reads this`calls
    {
      && id in calls && calls[id].Activating? && calls[id].sid == s.id && calls[id].token == token
      && calls[id].identity == identity && calls[id].stage == stage
    }

    method SetStageOf(ghost id: CallId, ghost stage: Stage)
      requires Valid() && id in calls && calls[id].Activating?
      modifies this`calls
      ensures Valid() && Now() == SetStage(old(Now()), id, stage)
    {
      calls := calls[id := calls[id].(stage := stage)];
    }

    method AfterResolve(s: CanvasSession, token: Token, identity: Identity, outcome: Outcome, ghost id: CallId)
      requires Valid() && Holds(s) && At(id, s, token, identity, Resolving)
      modifies this`window, this`calls, s
      ensures Valid() && Now() == ResumeActivation(old(Now()), id, outcome)
      ensures old(Safe()) ==> Safe()
    {
      ActivationKept(Now(), id, outcome);
      assert States()[s.id] == s.Value();
      if !outcome.Resolved? {
        SetStageOf(id, Returning(false));
      } else if s.fenceToken != Some(token) || !RequestedFor(s.Value(), identity) {
        SetStageOf(id, Releasing);
      } else if !outcome.safe {
        SetStageOf(id, Returning(false));
      } else {
        Destroyed(s);
        SetStageOf(id, ClosingLease(Route(identity, outcome.origins, outcome.leased)));
      }
    }

    method AfterRelease(s: CanvasSession, token: Token, identity: Identity, outcome: Outcome, ghost id: CallId)
      requires Valid() && Holds(s) && At(id, s, token, identity, Releasing)
      modifies this`calls
      ensures Valid() && Now() == ResumeActivation(old(Now()), id, outcome)
      ensures old(Safe()) ==> Safe()
    {
      ActivationKept(Now(), id, outcome);
      assert States()[s.id] == s.Value();
      SetStageOf(id, Returning(!outcome.Rejected? && s.fenceToken == Some(token)));
    }

    /** The route's network is opened. */
    method OpenRoute(s: CanvasSession, route: Route)
      modifies s
      ensures s.Value() == Opened(old(s.Value()), route)
    {
      s.mode := AllowRoutes;
      s.active := Some(route);
      s.lastOrigins := route.origins;
    }

    /** The new view, set before anything is loaded into it. */
    method SetView(s: CanvasSession, route: Route, viewId: nat)
      requires Valid() && Holds(s)
      modifies s
      ensures Valid()
      ensures Now() ==
              old(Now()).(states :=
                          old(States())[s.id := Opened(old(s.Value()), route).(view := Some(View(viewId, false)))])
    {
      OpenRoute(s, route);
      s.view := Some(View(viewId, false));
      OneChanged(s);
    }

    method StartLoading(generationId: string, ghost id: CallId)
      requires Valid() && id in calls && calls[id].Activating?
      modifies this`next, this`calls
      ensures Valid()
      ensures Now() ==
              old(Now()).(calls := old(calls)[id := old(calls)[id].(stage := Loading(old(next), generationId))],
                                   next := old(next) + 1)
    {
      calls := calls[id := calls[id].(stage := Loading(next, generationId))];
      next := next + 1;
    }

    method InstallRoute(s: CanvasSession, route: Route, ghost id: CallId)
      requires Valid() && Holds(s) && id in calls && calls[id].Activating? && calls[id].sid == s.id
      modifies this`next, this`calls, s
      ensures Valid() && Now() == Install(old(Now()), id, route)
    {
      SetView(s, route, next);
      StartLoading(route.identity.generationId, id);
    }

    method OpenedRoute(s: CanvasSession, route: Route)
      requires Valid() && Holds(s)
      modifies s
      ensures Valid() && Now() == old(Now()).(states := old(States())[s.id := Opened(old(s.Value()), route)])
    {
      OpenRoute(s, route);
      OneChanged(s);
    }

    /** `activateRoute` from its last await before loading: the view may fail to be created. */
    method ActivateRoute(s: CanvasSession, route: Route, outcome: Outcome, ghost id: CallId)
      requires Valid() && Holds(s) && id in calls && calls[id].Activating? && calls[id].sid == s.id
      modifies this`next, this`calls, s
      ensures Valid() && Now() == Activate(old(Now()), id, route, outcome)
    {
      assert States()[s.id] == s.Value();
      if outcome.Viewless? {
        OpenedRoute(s, route);
        SetStageOf(id, Returning(false));
      } else {
        InstallRoute(s, route, id);
      }
    }

    method AfterLeaseClosed(s: CanvasSession, token: Token, identity: Identity, route: Route, outcome: Outcome,
                            ghost id: CallId)
      requires Valid() && Holds(s) && At(id, s, token, identity, ClosingLease(route))
      modifies this`next, this`calls, s
      ensures Valid() && Now() == ResumeActivation(old(Now()), id, outcome)
      ensures old(Safe()) ==> Safe()
    {
      ActivationKept(Now(), id, outcome);
      if outcome.Rejected? {
        SetStageOf(id, Returning(false));
      } else if route.leased {
        SetStageOf(id, SettingProxy(route));
      } else {
        ActivateRoute(s, route, outcome, id);
      }
    }

    method AfterProxySet(s: CanvasSession, token: Token, identity: Identity, route: Route, outcome: Outcome,
                         ghost id: CallId)
      requires Valid() && Holds(s) && At(id, s, token, identity, SettingProxy(route))
      modifies this`next, this`calls, s
      ensures Valid() && Now() == ResumeActivation(old(Now()), id, outcome)
      ensures old(Safe()) ==> Safe()
    {
      ActivationKept(Now(), id, outcome);
      if outcome.Rejected? { SetStageOf(id, Returning(false)); } else { ActivateRoute(s, route, outcome, id); }
    }

    method Dropped(s: CanvasSession)
      requires Valid() && Holds(s)
      modifies this`window, s
      ensures Valid() && Now() == DropView(old(Now()), s.id)
    {
      assert States()[s.id] == s.Value();
      s.mode := DenyAll;
      DestroyView(s);
      OneChanged(s);
    }

    method AfterLoad(s: CanvasSession, token: Token, identity: Identity, viewId: nat, generationId: string,
                     outcome: Outcome, ghost id: CallId)
      requires Valid() && Holds(s) && At(id, s, token, identity, Loading(viewId, generationId))
      modifies this`window, this`calls, s
      ensures Valid() && Now() == ResumeActivation(old(Now()), id, outcome)
      ensures old(Safe()) ==> Safe()
    {
      ActivationKept(Now(), id, outcome);
      LoadSettled(s, token, identity, viewId, generationId, outcome, id);
    }

    method LoadSettled(s: CanvasSession, token: Token, identity: Identity, viewId: nat, generationId: string,
                       outcome: Outcome, ghost id: CallId)
      requires Valid() && Holds(s) && At(id, s, token, identity, Loading(viewId, generationId))
      modifies this`window, this`calls, s
      ensures Valid() && Now() == ResumeActivation(old(Now()), id, outcome)
    {
      assert States()[s.id] == s.Value();
      if outcome.Rejected? && LoadConcerns(s.Value(), viewId, generationId) {
        Dropped(s);
        SetStageOf(id, Returning(false));
      } else {
        SetStageOf(id, Loaded);
      }
    }

    /** `activateRequestedRoute` after the route is active, to its end. */
    method FinishActivation(s: CanvasSession, token: Token, identity: Identity, outcome: Outcome, ghost id: CallId)
      requires Valid() && Holds(s) && At(id, s, token, identity, Loaded)
      modifies this`window, this`calls, s
      ensures Valid() && Now() == ResumeActivation(old(Now()), id, outcome)
      ensures old(Safe()) ==> Safe()
    {
      ActivationKept(Now(), id, outcome);
      FinishWithFence(s, token, identity, id);
    }

    method FinishWithFence(s: CanvasSession, token: Token, identity: Identity, ghost id: CallId)
      requires Valid() && Holds(s) && At(id, s, token, identity, Loaded)
      modifies this`window, this`calls, s
      ensures Valid() && Now() == DesignCanvas.FinishActivation(old(Now()), id)
    {
      assert States()[s.id] == s.Value();
      if s.fenceToken != Some(token) {
        SetStageOf(id, Returning(false));
        return;
      }
      if !RequestedFor(s.Value(), identity) || !LiveView(s.Value()) {
        Dropped(s);
      } else {
        PlaceAndAttach(s, s.requestedShow.value.bounds);
      }
      SetStageOf(id, Returning(true));
    }

    /** `commit` and `rollback` let go of the fence whichever way the activation went. */
    method SettleActivation(s: CanvasSession, token: Token, identity: Identity, normally: bool, outcome: Outcome,
                            ghost id: CallId)
      requires Valid() && Holds(s) && At(id, s, token, identity, Returning(normally))
      modifies this`calls, s`fenceToken
      ensures Valid() && Now() == ResumeActivation(old(Now()), id, outcome)
      ensures old(Safe()) ==> Safe()
    {
      ActivationKept(Now(), id, outcome);
      LetGo(s, token, identity, normally, id);
    }

    method LetGo(s: CanvasSession, token: Token, identity: Identity, normally: bool, ghost id: CallId)
      requires Valid() && Holds(s) && At(id, s, token, identity, Returning(normally))
      modifies this`calls, s`fenceToken
      ensures Valid() && Now() == DesignCanvas.SettleActivation(old(Now()), id, normally)
    {
      ghost var byShow := calls[id].byShow;
      ReleaseFence(s, token);
      if normally {
        ContinueOrEnd(s.id, id, byShow);
      } else {
        End(id);
      }
    }

    /** A show goes on after its own commit; other calls have returned. */
    method ContinueOrEnd(sid: SessionId, ghost id: CallId, ghost byShow: bool)
      requires Valid()
      modifies this`calls
      ensures Valid() && Now() == if byShow then old(Now()).(calls := old(calls)[id := ShowAfterCommit(sid)])
              else EndCall(old(Now()), id)
    {
      calls := if byShow then calls[id := ShowAfterCommit(sid)] else calls - {id};
    }

    /** A show whose commit has settled shows again what was requested meanwhile. */
    method ContinueShow(s: CanvasSession, ghost id: CallId)
      requires Valid() && Holds(s) && id in calls && calls[id].ShowAfterCommit? && calls[id].sid == s.id
      modifies this, known.Values
      ensures Valid() && fresh(known.Values - old(known.Values)) && Now() == ResumeShow(old(Now()), id)
      ensures old(Safe()) ==> Safe()
    {
      ContinueShowKept(Now(), id);
      assert States()[s.id] == s.Value();
      End(id);
      var latest := s.requestedShow;
      if latest.Some? && !HasActiveView(s.Value(), latest.value.identity) { Show(latest.value); }
    }

    method AfterReload(s: CanvasSession, viewId: nat, generationId: string, outcome: Outcome, ghost id: CallId)
      requires Valid() && Holds(s) && id in calls && calls[id] == Reloading(s.id, viewId, generationId)
      modifies this`window, this`calls, s
      ensures Valid() && Now() == ResumeReload(old(Now()), id, outcome)
      ensures old(Safe()) ==> Safe()
    {
      ReloadKept(Now(), id, outcome);
      assert States()[s.id] == s.Value();
      if outcome.Rejected? && LoadConcerns(s.Value(), viewId, generationId) { Dropped(s); }
      End(id);
    }

    method ClearSession(s: CanvasSession)
      requires Valid() && Holds(s)
      modifies s
      ensures Valid()
      ensures Now() ==
              old(Now()).(states :=
                          old(States())[s.id :=
                                        old(s.Value()).(active := None, fenceToken := None, pendingLinks := [])])
    {
      s.active := None;
      s.fenceToken := None;
      s.pendingLinks := [];
      OneChanged(s);
    }

    method Unmap(s: CanvasSession)
      requires Valid() && Holds(s) && s.designId in sessions && sessions[s.designId] == s
      modifies this`sessions
      ensures Valid() && Now() == old(Now()).(sessions := old(Ids()) - {s.designId})
    {
      ghost var ids := Ids();
      sessions := sessions - {s.designId};
      assert Ids() == ids - {s.designId};
    }

    /** The session is forgotten, and is no longer its design's. */
    method ForgetSession(s: CanvasSession)
      requires Valid() && Holds(s)
      modifies this`sessions, s
      ensures Valid() && Now() == Forget(old(Now()), s.id)
    {
      assert States()[s.id] == s.Value();
      ClearSession(s);
      if s.designId in sessions && sessions[s.designId] == s { Unmap(s); }
    }

    method Reopen(s: CanvasSession)
      requires Valid() && Holds(s)
      modifies s`closing
      ensures Valid() && Now() == old(Now()).(states := old(States())[s.id := old(s.Value()).(closing := false)])
    {
      s.closing := false;
      OneChanged(s);
    }

    /** `close` goes on: its connections have closed, or one more origin is cleared. */
    method ContinueClose(s: CanvasSession, originsLeft: Option<nat>, outcome: Outcome, ghost id: CallId)
      requires Valid() && Holds(s) && id in calls && calls[id] == Closing(s.id, originsLeft)
      modifies this`sessions, this`calls, s
      ensures Valid() && Now() == ResumeClose(old(Now()), id, outcome)
      ensures old(Safe()) ==> Safe()
    {
      ClosingKept(Now(), id, outcome);
      assert States()[s.id] == s.Value();
      if outcome.Rejected? {
        Reopen(s);
        End(id);
        return;
      }
      var left := if originsLeft.Some? then OneLess(originsLeft.value) else |s.lastOrigins|;
      if left > 0 {
        SetCall(id, Closing(s.id, Some(left)));
      } else {
        ForgetSession(s);
        End(id);
      }
    }
  }

  lemma Kept(h: Host, e: Event)
    requires CanHappen(h, e)
    ensures CanvasSafety.Inv(h) ==> CanvasSafety.Inv(Step(h, e))
  {
    if CanvasSafety.Inv(h) { CanvasSafety.StepKeeps(h, e); }
  }

  lemma AttachStep(h: Host, id: nat, zoom: Number, width: real, height: real)
    ensures var g := Step(h, Event.AttachWindow(id, zoom, width, height));
            && (CanvasSafety.Inv(h) ==> CanvasSafety.Inv(g))
            && (if h.window.Some? && h.window.value.id == id then g == h
                else g == NextEpoch(Detach(h)).(window := Some(Window(id, false, zoom, width, height, {}))))
  {
    Kept(h, Event.AttachWindow(id, zoom, width, height));
  }

  lemma CommitStep(h: Host, id: CallId, outcome: Outcome)
    requires CanHappen(h, Resumed(id, outcome)) && h.calls[id].Leased?
    ensures var g := h.(calls := h.calls[id := Activation(h, h.calls[id], h.calls[id].candidate)]);
            Step(h, Resumed(id, outcome)) == g && (CanvasSafety.Inv(h) ==> CanvasSafety.Inv(g))
  {
    Kept(h, Resumed(id, outcome));
  }

  lemma ActivationKept(h: Host, id: CallId, outcome: Outcome)
    requires id in h.calls && h.calls[id].Activating? && h.calls[id].sid in h.states
    ensures CanvasSafety.Inv(h) ==> CanvasSafety.Inv(ResumeActivation(h, id, outcome))
  {
    if CanvasSafety.Inv(h) { CanvasSafety.ResumeActivationKeeps(h, id, outcome); }
  }

  lemma BeginningKept(h: Host, id: CallId, outcome: Outcome)
    requires id in h.calls && h.calls[id].Beginning? && h.calls[id].sid in h.states
    ensures CanvasSafety.Inv(h) ==> CanvasSafety.Inv(ResumeBegin(h, id, outcome))
  {
    if CanvasSafety.Inv(h) { CanvasSafety.ResumeBeginKeeps(h, id, outcome); }
  }

  lemma ClosingKept(h: Host, id: CallId, outcome: Outcome)
    requires id in h.calls && h.calls[id].Closing? && h.calls[id].sid in h.states
    ensures CanvasSafety.Inv(h) ==> CanvasSafety.Inv(ResumeClose(h, id, outcome))
  {
    if CanvasSafety.Inv(h) { CanvasSafety.ResumeCloseKeeps(h, id, outcome); }
  }

  lemma ContinueShowKept(h: Host, id: CallId)
    requires id in h.calls && h.calls[id].ShowAfterCommit? && h.calls[id].sid in h.states
    ensures CanvasSafety.Inv(h) ==> CanvasSafety.Inv(ResumeShow(h, id))
  {
    if CanvasSafety.Inv(h) { CanvasSafety.ShowGoesOnKeeps(h, id); }
  }

  lemma ReloadKept(h: Host, id: CallId, outcome: Outcome)
    requires id in h.calls && h.calls[id].Reloading? && h.calls[id].sid in h.states
    ensures CanvasSafety.Inv(h) ==> CanvasSafety.Inv(ResumeReload(h, id, outcome))
  {
    if CanvasSafety.Inv(h) { CanvasSafety.ReloadKeeps(h, id, outcome); }
  }

  lemma BeginKept(h: Host, designId: DesignId, candidate: Identity, replaced: Option<Identity>)
    ensures CanvasSafety.Inv(h) ==> CanvasSafety.Inv(BeginCutover(h, designId, candidate, replaced))
  {
    if CanvasSafety.Inv(h) { CanvasSafety.BeginCutoverKeeps(h, designId, candidate, replaced); }
  }

  lemma ShowKept(h: Host, input: DesignCanvas.Show)
    ensures CanvasSafety.Inv(h) ==> CanvasSafety.Inv(ShowDesign(h, input))
  {
    if CanvasSafety.Inv(h) { CanvasSafety.ShowKeeps(h, input); }
  }

  lemma HideKept(h: Host, designId: DesignId, requestId: int)
    ensures CanvasSafety.Inv(h) ==> CanvasSafety.Inv(Hide(h, designId, requestId))
  {
    if CanvasSafety.Inv(h) { CanvasSafety.HideKeeps(h, designId, requestId); }
  }

  lemma RefreshKept(h: Host, designId: DesignId, generationId: string, requestId: int)
    ensures CanvasSafety.Inv(h) ==> CanvasSafety.Inv(Refresh(h, designId, generationId, requestId))
  {
    if CanvasSafety.Inv(h) { CanvasSafety.RefreshKeeps(h, designId, generationId, requestId); }
  }

  lemma CloseKept(h: Host, designId: DesignId)
    ensures CanvasSafety.Inv(h) ==> CanvasSafety.Inv(Close(h, designId))
  {
    if CanvasSafety.Inv(h) { CanvasSafety.CloseKeeps(h, designId); }
  }

  lemma ApproveKept(h: Host, designId: DesignId, linkId: nat)
    ensures CanvasSafety.Inv(h) ==> CanvasSafety.Inv(Approve(h, designId, linkId))
  {
    if CanvasSafety.Inv(h) { CanvasSafety.ApproveKeeps(h, designId, linkId); }
  }

  lemma LinkKept(h: Host, sid: SessionId, lifetime: int)
    requires sid in h.states
    ensures CanvasSafety.Inv(h) ==> CanvasSafety.Inv(RequestLink(h, sid, lifetime))
  {
    if CanvasSafety.Inv(h) { CanvasSafety.RequestLinkKeeps(h, sid, lifetime); }
  }

  lemma GenerationKept(h: Host, generationId: string)
    ensures CanvasSafety.Inv(h) ==> CanvasSafety.Inv(DeactivateAll(h, SessionsOf(h, generationId), true))
  {
    if CanvasSafety.Inv(h) { CanvasSafety.DeactivateAllKeeps(h, SessionsOf(h, generationId), true); }
  }

  lemma DetachKept(h: Host)
    ensures CanvasSafety.Inv(h) ==> CanvasSafety.Inv(Detach(h))
  {
    if CanvasSafety.Inv(h) { CanvasSafety.DetachKeeps(h); }
  }

  lemma CommitKept(h: Host, lease: CallId)
    requires lease in h.calls && h.calls[lease].Leased? && h.calls[lease].sid in h.states
    ensures CanvasSafety.Inv(h) ==> CanvasSafety.Inv(Commit(h, lease))
  {
    if CanvasSafety.Inv(h) { CanvasSafety.NewCallKeeps(h, Activation(h, h.calls[lease], h.calls[lease].candidate)); }
  }

  lemma RollbackKept(h: Host, lease: CallId)
    requires lease in h.calls && h.calls[lease].Leased? && h.calls[lease].sid in h.states
    ensures CanvasSafety.Inv(h) ==> CanvasSafety.Inv(Rollback(h, lease))
  {
    if CanvasSafety.Inv(h) { CanvasSafety.RollbackKeeps(h, lease); }
  }

  /** What a loop over the sessions does to one of them. */
  datatype Change =
    | Deactivates(preserveLinks: bool, now: int)
    | Detaches(now: int)
    | Resets(rendererEpoch: nat, now: int)
    | Joins(rendererEpoch: nat)

  function Apply(change: Change, s: Session): Session {
    match change
    case Deactivates(preserveLinks, now) => Deactivate(s, preserveLinks, now)
    case Detaches(now) => Deactivate(s.(fenceToken := None), false, now)
    case Resets(epoch, now) => Deactivate(s.(rendererEpoch := epoch, requestId := -1), false, now)
    case Joins(epoch) => s.(rendererEpoch := epoch, requestId := -1)
  }

  function SetSome(states: map<SessionId, Session>, done: set<SessionId>, change: Change): map<SessionId, Session> {
    map id | id in states :: if id in done then Apply(change, states[id]) else states[id]
  }

  lemma DeactivatesAll(h: Host, targets: set<SessionId>, preserveLinks: bool)
    ensures SetSome(h.states, targets, Deactivates(preserveLinks, h.now)) ==
            DeactivateAll(h, targets, preserveLinks).states
  {
  }

  ghost function AllReset(h: Host): Host {
    h.(states := SetSome(h.states, Mapped(h), Resets(h.rendererEpoch, h.now)),
       window := WithoutChildren(h.window, ViewsOf(h, Mapped(h))))
  }

  ghost function AllJoined(h: Host): Host {
    h.(states := SetSome(h.states, Mapped(h), Joins(h.rendererEpoch)))
  }

  lemma ResetIs(h: Host, g: Host)
    requires g == h.(rendererEpoch := h.rendererEpoch + 1)
    ensures Step(h, RendererReset) == AllReset(g)
  {
    assert Mapped(DeactivateAll(h, Mapped(h), false)) == Mapped(h) == Mapped(g) &&
           ViewsOf(h, Mapped(h)) == ViewsOf(g, Mapped(h));
    assert AllReset(g).states == Step(h, RendererReset).states;
  }

  lemma DetachIs(h: Host, g: Host)
    requires g == h.(window := None)
    ensures Detach(h) == g.(states := SetSome(g.states, Mapped(g), Detaches(g.now)))
  {
    assert Mapped(g) == Mapped(h);
    assert SetSome(g.states, Mapped(g), Detaches(g.now)) == Detach(h).states;
  }

  lemma AttachIs(h: Host, g: Host)
    requires g == h.(window := g.window, rendererEpoch := h.rendererEpoch + 1)
    ensures NextEpoch(h).(window := g.window) == AllJoined(g)
  {
    assert Mapped(g) == Mapped(h);
    assert SetSome(g.states, Mapped(g), Joins(g.rendererEpoch)) == NextEpoch(h).states;
  }

  /** Accepting an id changes neither which sessions give way nor what they have attached. */
  lemma AcceptedAside(h: Host, g: Host, sid: SessionId, requestId: int, selected: DesignId)
    requires sid in h.states && h.states[sid].designId == selected
    requires g == h.(states := h.states[sid := h.states[sid].(requestId := requestId)])
    ensures OtherSessions(g, selected) == OtherSessions(h, selected) - {sid}
    ensures ViewsOf(g, OtherSessions(g, selected)) == ViewsOf(h, OtherSessions(g, selected))
  {
    assert Mapped(g) == Mapped(h);
  }

  lemma RequestIs(h: Host, g: Host, sid: SessionId, input: DesignCanvas.Show)
    requires sid in h.states && h.states[sid].designId == input.designId
    requires g == h.(states := h.states[sid := h.states[sid].(requestId := input.requestId)])
    ensures var others := DeactivateAll(g, OtherSessions(g, input.designId), true);
            sid in others.states &&
            others.(states := others.states[sid := others.states[sid].(requestedShow := Some(input))]) ==
            Request(h, sid, input)
  {
    AcceptedAside(h, g, sid, input.requestId, input.designId);
    var targets := OtherSessions(g, input.designId);
    var others := DeactivateAll(g, targets, true);
    assert others.states[sid := g.states[sid].(requestedShow := Some(input))] == Request(h, sid, input).states;
  }

  lemma HideIs(h: Host, g: Host, designId: DesignId, requestId: int)
    requires designId in h.sessions && h.sessions[designId] in h.states
    requires var sid := h.sessions[designId]; var s := h.states[sid]; var t := s.(requestId := requestId);
             Accepts(s, h.rendererEpoch, requestId) &&
             g == Put(h.(states := h.states[sid := t]), sid, Deactivate(t, true, h.now))
    ensures g == DesignCanvas.Hide(h, designId, requestId)
  {
    var sid := h.sessions[designId];
    var t := h.states[sid].(requestId := requestId);
    assert h.states[sid := t][sid := Deactivate(t, true, h.now)] == h.states[sid := Deactivate(t, true, h.now)];
  }

  lemma ValuesWith(known: map<SessionId, CanvasSession>, id: SessionId, made: CanvasSession)
    requires id !in known
    ensures known[id := made].Values == known.Values + {made}
  {
    var more := known[id := made];
    assert forall k :: k in known ==> more[k] == known[k];
    assert more[id] == made;
  }

  lemma NothingGone(w: Option<Window>)
    ensures WithoutChildren(w, {}) == w
  {
    if LiveWindow(w) { assert w.value.children - {} == w.value.children; }
  }

  lemma SetOneMore(h: Host, done: set<SessionId>, sid: SessionId, change: Change)
    requires sid in h.states && sid !in done
    ensures SetSome(h.states, done, change)[sid := Apply(change, h.states[sid])] ==
            SetSome(h.states, done + {sid}, change)
    ensures !change.Joins? ==>
              WithoutChildren(WithoutChildren(h.window, ViewsOf(h, done)),
                              AttachedView(h.states[sid]) - AttachedView(Apply(change, h.states[sid]))) ==
              WithoutChildren(h.window, ViewsOf(h, done + {sid}))
  {
    assert ViewsOf(h, done + {sid}) == ViewsOf(h, done) + AttachedView(h.states[sid]);
    if LiveWindow(h.window) {
      assert (h.window.value.children - ViewsOf(h, done)) - (AttachedView(h.states[sid]) - {}) ==
             h.window.value.children - (ViewsOf(h, done) + AttachedView(h.states[sid]));
    }
  }
}
