/**
 * Which steps attach a view, and what is left of a lease once its token is no longer its
 * session's fence: nothing, for good.
 */
module CanvasSuperseded {
  import opened Wrappers
  import opened DesignCanvas
  import opened CanvasSafety
  import opened CanvasFrames
  import opened CanvasFences

  predicate Attaches(h: Host, g: Host, sid: SessionId) {
    ShownIn(g, sid) && !ShownIn(h, sid)
  }

  /** A lease about to attach: its view is live, its identity still asked for, and its token the fence. */
  predicate LeaseAttaches(h: Host, e: Event, sid: SessionId) {
    && e.Resumed? && e.call in h.calls && sid in h.states && h.calls[e.call].Activating? && h.calls[e.call].sid == sid
    && h.calls[e.call].stage.Loaded? && h.states[sid].fenceToken == Some(h.calls[e.call].token)
    && RequestedFor(h.states[sid], h.calls[e.call].identity) && LiveView(h.states[sid])
  }

  /** A show of what the session already has active, while no cutover is under way. */
  predicate ShowAttaches(h: Host, e: Event, sid: SessionId) {
    && e.ShowCalled? && sid in h.states && e.input.designId in h.sessions && h.sessions[e.input.designId] == sid
    && h.states[sid].fenceToken.None? && HasActiveView(h.states[sid], e.input.identity)
  }

  lemma PresentAttaches(h: Host, at: SessionId, input: Show, sid: SessionId)
    requires at in h.states && Attaches(h, Present(h, at, input), sid)
    ensures sid == at && h.states[at].fenceToken.None? && HasActiveView(h.states[at], input.identity)
  {
  }

  lemma RequestAttachesNone(h: Host, at: SessionId, input: Show, sid: SessionId)
    requires at in h.states
    ensures !Attaches(h, Request(h, at, input), sid)
    ensures var s := h.states[at]; var t := Request(h, at, input).states[at];
            t.fenceToken == s.fenceToken && t.view == s.view && t.active == s.active && t.designId == s.designId
  {
  }

  lemma WithSessionAttachesNone(h: Host, designId: DesignId, sid: SessionId)
    requires Inv(h)
    ensures !Attaches(h, WithSession(h, designId), sid)
  {
  }

  lemma ShowDesignAttaches(h: Host, input: Show, sid: SessionId)
    requires Inv(h) && Attaches(h, ShowDesign(h, input), sid)
    ensures ShowAttaches(h, ShowCalled(input), sid)
  {
    var ready := WithSession(h, input.designId);
    WithSessionAttachesNone(h, input.designId, sid);
    WithSessionKeeps(h, input.designId);
    var at := RequireSession(h, input.designId).value;
    RequestAttachesNone(ready, at, input, sid);
    PresentAttaches(Request(ready, at, input), at, input, sid);
  }

  lemma ShowAgainAttachesNone(h: Host, input: Show, sid: SessionId)
    requires Inv(h) && !ShowAttaches(h, ShowCalled(input), sid)
    ensures !Attaches(h, ShowDesign(h, input), sid)
  {
    if Attaches(h, ShowDesign(h, input), sid) { ShowDesignAttaches(h, input, sid); }
  }

  lemma RefreshAttachesNone(h: Host, designId: DesignId, generationId: string, requestId: int, sid: SessionId)
    requires Inv(h)
    ensures !Attaches(h, Refresh(h, designId, generationId, requestId), sid)
  {
    if designId in h.sessions && Accepts(h.states[h.sessions[designId]], h.rendererEpoch, requestId) {
      var at := h.sessions[designId];
      var s := h.states[at];
      AcceptKeeps(h, at, requestId);
      if s.requestedShow.Some? && !LiveView(s) {
        var input := s.requestedShow.value.(requestId := requestId);
        assert input.designId == designId;
        ShowAgainAttachesNone(h.(states := h.states[at := s.(requestId := requestId)]), input, sid);
      }
    }
  }

  lemma ResumeShowAttachesNone(h: Host, id: CallId, sid: SessionId)
    requires Inv(h) && id in h.calls && h.calls[id].ShowAfterCommit?
    ensures !Attaches(h, ResumeShow(h, id), sid)
  {
    EndCallKeeps(h, id);
    var at := h.calls[id].sid;
    var s := h.states[at];
    if s.requestedShow.Some? && !HasActiveView(s, s.requestedShow.value.identity) {
      assert SessionOk(s) && MapsTo(h, at, s);
      ShowAgainAttachesNone(EndCall(h, id), s.requestedShow.value, sid);
    }
  }

  lemma BeginAttachesNone(h: Host, designId: DesignId, candidate: Identity, replaced: Option<Identity>, sid: SessionId)
    ensures !Attaches(h, BeginCutover(h, designId, candidate, replaced), sid)
  {
  }

  lemma ActivationAttaches(h: Host, id: CallId, outcome: Outcome, sid: SessionId)
    requires CanHappen(h, Resumed(id, outcome)) && h.calls[id].Activating? &&
             Attaches(h, ResumeActivation(h, id, outcome), sid)
    ensures LeaseAttaches(h, Resumed(id, outcome), sid)
  {
  }

  lemma OtherCallsAttachNone(h: Host, id: CallId, outcome: Outcome, sid: SessionId)
    requires CanHappen(h, Resumed(id, outcome)) && !h.calls[id].Activating? && !h.calls[id].ShowAfterCommit?
    ensures !Attaches(h, Step(h, Resumed(id, outcome)), sid)
  {
  }

  lemma OtherEventsAttachNone(h: Host, e: Event, sid: SessionId)
    requires CanHappen(h, e) && !e.ShowCalled? && !e.RefreshCalled? && !e.BeginCalled? && !e.Resumed?
    ensures !Attaches(h, Step(h, e), sid)
  {
  }

  /** A view is attached in no other step. */
  lemma WhoAttaches(h: Host, e: Event, sid: SessionId)
    requires Inv(h) && CanHappen(h, e) && Attaches(h, Step(h, e), sid)
    ensures LeaseAttaches(h, e, sid) || ShowAttaches(h, e, sid)
  {
    match e {
      case ShowCalled(input) => ShowDesignAttaches(h, input, sid);
      case RefreshCalled(designId, generationId, requestId) =>
        RefreshAttachesNone(h, designId, generationId, requestId, sid);
      case BeginCalled(designId, candidate, replaced) => BeginAttachesNone(h, designId, candidate, replaced, sid);
      case Resumed(call, outcome) =>
        if h.calls[call].Activating? {
          ActivationAttaches(h, call, outcome, sid);
        } else if h.calls[call].ShowAfterCommit? {
          ResumeShowAttachesNone(h, call, sid);
        } else {
          OtherCallsAttachNone(h, call, outcome, sid);
        }
      case _ => OtherEventsAttachNone(h, e, sid);
    }
  }

  /** A lease driven once more after its fence is gone: the drive returns with an error. */
  predicate DriveThrows(h: Host, g: Host, lease: CallId)
    requires lease in h.calls && h.calls[lease].Leased?
  {
    && g.states == h.states && g.window == h.window && h.next in g.calls
    && Serves(g.calls[h.next], h.calls[lease].sid, h.calls[lease].token)
    && g.calls[h.next].Activating? && g.calls[h.next].stage == Returning(false)
  }

  lemma LateDrive(h: Host, e: Event, sid: SessionId, token: Token)
    requires CanHappen(h, e) && Own(h, e, sid, token) && (e.CommitCalled? || e.RollbackCalled?) &&
             FenceOf(h, sid) != Some(token)
    ensures DriveThrows(h, Step(h, e), e.lease)
  {
  }

  /** The drive settles: the session has lost the lease's fence, and a late drive has changed nothing else. */
  lemma DriveSettles(h: Host, id: CallId, outcome: Outcome, sid: SessionId, token: Token)
    requires CanHappen(h, Resumed(id, outcome)) && Serves(h.calls[id], sid, token) && h.calls[id].Activating? &&
             h.calls[id].stage.Returning?
    ensures var g := Step(h, Resumed(id, outcome));
            && FenceOf(g, sid) != Some(token)
            && (FenceOf(h, sid) != Some(token) ==> g.states == h.states && g.window == h.window)
  {
  }

  /**
   * Once a session's fence is not the lease's token, whether a later cutover took it, the
   * window was detached or the lease has settled, it never is again: the lease attaches
   * nothing more, and each later commit or rollback of it throws and changes no session.
   */
  lemma SupersededForGood(events: seq<Event>, hosts: seq<Host>, i: nat, j: nat, sid: SessionId, token: Token)
    requires Run(events, hosts) && i <= j < |events| && sid in hosts[i].states
    requires token < hosts[i].next && FenceOf(hosts[i], sid) != Some(token)
    ensures FenceOf(hosts[j], sid) != Some(token)
    ensures Own(hosts[j], events[j], sid, token) ==> !Attaches(hosts[j], hosts[j + 1], sid)
    ensures Own(hosts[j], events[j], sid, token) && (events[j].CommitCalled? || events[j].RollbackCalled?) ==>
              DriveThrows(hosts[j], hosts[j + 1], events[j].lease)
  {
    RunFrame(events, hosts, i, j);
    RunKeeps(events, hosts, j);
    if Own(hosts[j], events[j], sid, token) {
      if events[j].CommitCalled? || events[j].RollbackCalled? { LateDrive(hosts[j], events[j], sid, token); }
      if Attaches(hosts[j], hosts[j + 1], sid) { WhoAttaches(hosts[j], events[j], sid); }
    }
  }
}
