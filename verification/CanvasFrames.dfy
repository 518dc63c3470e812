/** What one step may change about a session it does not create, whatever state it starts from. */
module CanvasFrames {
  import opened Wrappers
  import opened CanvasBounds
  import opened DesignCanvas
  import opened CanvasSafety

  /** A fence token or a view is kept, dropped, or new. */
  predicate KeptOrNew(before: Option<nat>, after: Option<nat>, from: nat, to: nat) {
    after == before || after.None? || from <= after.value < to
  }

  function ViewId(s: Session): Option<nat> {
    if s.view.Some? then Some(s.view.value.id) else None
  }

  predicate SessionFrame(s: Session, t: Session, from: nat, to: nat, sameEpoch: bool) {
    && t.designId == s.designId
    && KeptOrNew(s.fenceToken, t.fenceToken, from, to)
    && KeptOrNew(ViewId(s), ViewId(t), from, to)
    && (sameEpoch ==> s.requestId <= t.requestId && t.rendererEpoch == s.rendererEpoch)
  }

  ghost predicate Frame(h: Host, g: Host) {
    && h.next <= g.next && h.rendererEpoch <= g.rendererEpoch && h.states.Keys <= g.states.Keys
    && (forall sid :: sid in h.states ==>
          SessionFrame(h.states[sid], g.states[sid], h.next, g.next, g.rendererEpoch == h.rendererEpoch))
    && (forall sid :: sid in g.states && sid !in h.states ==> NewFrame(g.states[sid], h.next, g.next))
  }

  predicate NewFrame(t: Session, from: nat, to: nat) {
    KeptOrNew(None, t.fenceToken, from, to) && KeptOrNew(None, ViewId(t), from, to)
  }

  lemma FrameTwice(h: Host, g: Host, k: Host)
    requires Frame(h, g) && Frame(g, k)
    ensures Frame(h, k)
  {
    forall sid | sid in h.states
      ensures SessionFrame(h.states[sid], k.states[sid], h.next, k.next, k.rendererEpoch == h.rendererEpoch)
    {
      assert SessionFrame(h.states[sid], g.states[sid], h.next, g.next, g.rendererEpoch == h.rendererEpoch);
      assert SessionFrame(g.states[sid], k.states[sid], g.next, k.next, k.rendererEpoch == g.rendererEpoch);
    }
    forall sid | sid in k.states && sid !in h.states ensures NewFrame(k.states[sid], h.next, k.next) {
      if sid in g.states {
        assert SessionFrame(g.states[sid], k.states[sid], g.next, k.next, k.rendererEpoch == g.rendererEpoch);
      }
    }
  }

  lemma OneFrame(h: Host, g: Host, sid: SessionId)
    requires sid in h.states && sid in g.states && g.states == h.states[sid := g.states[sid]]
    requires h.next <= g.next && g.rendererEpoch == h.rendererEpoch &&
             SessionFrame(h.states[sid], g.states[sid], h.next, g.next, true)
    ensures Frame(h, g)
  {
  }

  lemma SameFrame(h: Host, g: Host)
    requires g.states == h.states && h.next <= g.next && g.rendererEpoch == h.rendererEpoch
    ensures Frame(h, g)
  {
  }

  lemma PlaceFrame(h: Host, sid: SessionId, bounds: Bounds)
    requires sid in h.states
    ensures Frame(h, PlaceAndAttach(h, sid, bounds))
  {
  }

  lemma DeactivateAllFrame(h: Host, targets: set<SessionId>, preserveLinks: bool)
    ensures Frame(h, DeactivateAll(h, targets, preserveLinks))
  {
  }

  /** Calls do not count. */
  lemma FrameTo(h: Host, g: Host, k: Host)
    requires Frame(h, g) && k.states == g.states && k.next == g.next && k.rendererEpoch == g.rendererEpoch
    ensures Frame(h, k)
  {
  }

  lemma PutFrame(h: Host, sid: SessionId, t: Session)
    requires sid in h.states && SessionFrame(h.states[sid], t, h.next, h.next, true)
    ensures Frame(h, Put(h, sid, t))
  {
  }

  lemma ClearOriginsFrame(h: Host, id: CallId, left: nat)
    requires id in h.calls && h.calls[id].Beginning? && h.calls[id].sid in h.states
    ensures Frame(h, ClearOrigins(h, id, left)) && Frame(h, BeginFails(h, id))
  {
  }

  lemma BeginFrame(h: Host, id: CallId, outcome: Outcome)
    requires id in h.calls && h.calls[id].Beginning? && h.calls[id].sid in h.states
    ensures Frame(h, ResumeBegin(h, id, outcome))
  {
    var c := h.calls[id];
    if outcome.Rejected? || c.originsLeft.Some? {
      ClearOriginsFrame(h, id, if c.originsLeft.Some? then OneLess(c.originsLeft.value) else 0);
    } else {
      var off := Put(h, c.sid, DestroyView(h.states[c.sid]));
      PutFrame(h, c.sid, DestroyView(h.states[c.sid]));
      ClearOriginsFrame(off, id, |h.states[c.sid].lastOrigins|);
      FrameTwice(h, off, ResumeBegin(h, id, outcome));
    }
  }

  lemma ActivateFrame(h: Host, id: CallId, route: Route, outcome: Outcome)
    requires id in h.calls && h.calls[id].Activating? && h.calls[id].sid in h.states
    ensures Frame(h, Activate(h, id, route, outcome))
  {
    OneFrame(h, Activate(h, id, route, outcome), h.calls[id].sid);
  }

  lemma DropViewFrame(h: Host, sid: SessionId)
    requires sid in h.states
    ensures Frame(h, DropView(h, sid))
  {
  }

  lemma FinishFrame(h: Host, id: CallId)
    requires id in h.calls && h.calls[id].Activating? && h.calls[id].sid in h.states
    ensures Frame(h, FinishActivation(h, id))
  {
    var c := h.calls[id];
    var s := h.states[c.sid];
    var g := FinishActivation(h, id);
    if s.fenceToken != Some(c.token) {
      SameFrame(h, g);
    } else if !RequestedFor(s, c.identity) || !LiveView(s) {
      DropViewFrame(h, c.sid);
      FrameTo(h, DropView(h, c.sid), g);
    } else {
      PlaceFrame(h, c.sid, s.requestedShow.value.bounds);
      FrameTo(h, PlaceAndAttach(h, c.sid, s.requestedShow.value.bounds), g);
    }
  }

  lemma SettleFrame(h: Host, id: CallId, normally: bool)
    requires id in h.calls && h.calls[id].Activating? && h.calls[id].sid in h.states
    ensures Frame(h, SettleActivation(h, id, normally))
  {
  }

  /** Either only the call changed, or a view came or went. */
  lemma StageFrame(h: Host, id: CallId, outcome: Outcome)
    requires id in h.calls && h.calls[id].Activating? && h.calls[id].sid in h.states
    requires !h.calls[id].stage.Loaded? && !h.calls[id].stage.Returning?
    ensures Frame(h, ResumeActivation(h, id, outcome))
  {
    var c := h.calls[id];
    var s := h.states[c.sid];
    var g := ResumeActivation(h, id, outcome);
    if g.states == h.states {
      SameFrame(h, g);
    } else {
      match c.stage {
        case Resolving =>
          PutFrame(h, c.sid, DestroyView(s));
          FrameTo(h, Put(h, c.sid, DestroyView(s)), g);
        case Releasing =>
        case ClosingLease(route) => ActivateFrame(h, id, route, outcome);
        case SettingProxy(route) => ActivateFrame(h, id, route, outcome);
        case Loading(_, _) =>
          DropViewFrame(h, c.sid);
          FrameTo(h, DropView(h, c.sid), g);
      }
    }
  }

  lemma ActivationFrame(h: Host, id: CallId, outcome: Outcome)
    requires id in h.calls && h.calls[id].Activating? && h.calls[id].sid in h.states
    ensures Frame(h, ResumeActivation(h, id, outcome))
  {
    match h.calls[id].stage {
      case Loaded => FinishFrame(h, id);
      case Returning(normally) => SettleFrame(h, id, normally);
      case _ => StageFrame(h, id, outcome);
    }
  }

  lemma CloseFrame(h: Host, id: CallId, outcome: Outcome)
    requires id in h.calls && h.calls[id].Closing? && h.calls[id].sid in h.states
    ensures Frame(h, ResumeClose(h, id, outcome))
  {
  }

  lemma StartBeginFrame(h: Host, sid: SessionId, candidate: Identity, replaced: Option<Identity>, byShow: bool)
    requires sid in h.states
    ensures Frame(h, StartBegin(h, sid, candidate, replaced, byShow))
  {
    OneFrame(h, StartBegin(h, sid, candidate, replaced, byShow), sid);
  }

  lemma PresentFrame(h: Host, sid: SessionId, input: Show)
    requires sid in h.states
    ensures Frame(h, Present(h, sid, input))
  {
    var s := h.states[sid];
    var replaced := if s.active.Some? then Some(s.active.value.identity) else None;
    SameFrame(h, h);
    PlaceFrame(h, sid, input.bounds);
    StartBeginFrame(h, sid, input.identity, replaced, true);
  }

  lemma RequestFrame(h: Host, sid: SessionId, input: Show)
    requires sid in h.states && h.states[sid].requestId <= input.requestId
    ensures Frame(h, Request(h, sid, input))
  {
  }

  lemma WithSessionFrame(h: Host, designId: DesignId)
    requires forall sid :: sid in h.states ==> sid < h.next
    ensures Frame(h, WithSession(h, designId))
  {
  }

  lemma AcceptedFrame(h: Host, sid: SessionId, input: Show)
    requires sid in h.states && h.states[sid].requestId <= input.requestId
    ensures Frame(h, Present(Request(h, sid, input), sid, input))
  {
    RequestFrame(h, sid, input);
    PresentFrame(Request(h, sid, input), sid, input);
    FrameTwice(h, Request(h, sid, input), Present(Request(h, sid, input), sid, input));
  }

  lemma ShowFrame(h: Host, input: Show)
    requires forall sid :: sid in h.states ==> sid < h.next
    ensures Frame(h, ShowDesign(h, input))
  {
    var ready := WithSession(h, input.designId);
    WithSessionFrame(h, input.designId);
    SameFrame(h, h);
    var g := ShowDesign(h, input);
    if g != h && g != ready {
      AcceptedFrame(ready, RequireSession(h, input.designId).value, input);
      FrameTwice(h, ready, g);
    }
  }

  lemma BeginCutoverFrame(h: Host, designId: DesignId, candidate: Identity, replaced: Option<Identity>)
    requires forall sid :: sid in h.states ==> sid < h.next
    ensures Frame(h, BeginCutover(h, designId, candidate, replaced))
  {
    var ready := WithSession(h, designId);
    var g := BeginCutover(h, designId, candidate, replaced);
    WithSessionFrame(h, designId);
    SameFrame(h, h);
    if g != h {
      StartBeginFrame(ready, RequireSession(h, designId).value, candidate, replaced, false);
      FrameTwice(h, ready, g);
    }
  }

  lemma FrameOn(h: Host, g: Host, k: Host)
    requires Frame(h, g) && k.states == g.states && g.next <= k.next && k.rendererEpoch == g.rendererEpoch
    ensures Frame(h, k)
  {
    SameFrame(g, k);
    FrameTwice(h, g, k);
  }

  lemma RefreshFrame(h: Host, designId: DesignId, generationId: string, requestId: int)
    requires forall sid :: sid in h.states ==> sid < h.next
    ensures Frame(h, Refresh(h, designId, generationId, requestId))
  {
    var g := Refresh(h, designId, generationId, requestId);
    if g == h {
      SameFrame(h, h);
    } else {
      var sid := h.sessions[designId];
      var s := h.states[sid];
      var accepted := h.(states := h.states[sid := s.(requestId := requestId)]);
      OneFrame(h, accepted, sid);
      if g.states == accepted.states && accepted.next <= g.next && g.rendererEpoch == accepted.rendererEpoch {
        FrameOn(h, accepted, g);
      } else {
        ShowFrame(accepted, s.requestedShow.value.(requestId := requestId));
        FrameTwice(h, accepted, g);
      }
    }
  }

  lemma DetachFrame(h: Host)
    ensures Frame(h, Detach(h))
  {
  }

  lemma AttachWindowFrame(h: Host, w: Window)
    ensures Frame(h, NextEpoch(Detach(h)).(window := Some(w)))
  {
  }

  lemma ResetFrame(h: Host)
    ensures Frame(h, NextEpoch(DeactivateAll(h, Mapped(h), false)))
  {
  }

  lemma RollbackFrame(h: Host, lease: CallId)
    requires lease in h.calls && h.calls[lease].Leased? && h.calls[lease].sid in h.states
    ensures Frame(h, Rollback(h, lease))
  {
  }

  lemma HideFrame(h: Host, designId: DesignId, requestId: int)
    ensures Frame(h, Hide(h, designId, requestId))
  {
  }

  lemma CloseCalledFrame(h: Host, designId: DesignId)
    ensures Frame(h, Close(h, designId))
  {
  }

  lemma ApproveFrame(h: Host, designId: DesignId, linkId: nat)
    ensures Frame(h, Approve(h, designId, linkId))
  {
  }

  lemma SurroundingsFrame(h: Host, e: Event)
    requires CanHappen(h, e)
    requires e.LinkRequested? || e.ViewDestroyed? || e.WindowDestroyed? || e.WindowResized? || e.TimePasses? ||
             e.CommitCalled?
    ensures Frame(h, Step(h, e))
  {
    var g := Step(h, e);
    if g.states == h.states { SameFrame(h, g); } else { OneFrame(h, g, e.sid); }
  }

  lemma ReloadFrame(h: Host, id: CallId, outcome: Outcome)
    requires id in h.calls && h.calls[id].Reloading? && h.calls[id].sid in h.states
    ensures Frame(h, ResumeReload(h, id, outcome))
  {
  }

  lemma ResumeShowFrame(h: Host, id: CallId)
    requires forall sid :: sid in h.states ==> sid < h.next
    requires id in h.calls && h.calls[id].ShowAfterCommit? && h.calls[id].sid in h.states
    ensures Frame(h, ResumeShow(h, id))
  {
    SameFrame(h, EndCall(h, id));
    var g := ResumeShow(h, id);
    if g != EndCall(h, id) {
      ShowFrame(EndCall(h, id), h.states[h.calls[id].sid].requestedShow.value);
      FrameTwice(h, EndCall(h, id), g);
    }
  }

  lemma ResumedFrame(h: Host, call: CallId, outcome: Outcome)
    requires CanHappen(h, Resumed(call, outcome)) && forall sid :: sid in h.states ==> sid < h.next
    ensures Frame(h, Step(h, Resumed(call, outcome)))
  {
    match h.calls[call] {
      case Beginning(_, _, _, _, _, _) => BeginFrame(h, call, outcome);
      case Leased(_, _, _, _, _) => SameFrame(h, Step(h, Resumed(call, outcome)));
      case Activating(_, _, _, _, _) => ActivationFrame(h, call, outcome);
      case ShowAfterCommit(_) => ResumeShowFrame(h, call);
      case Reloading(_, _, _) => ReloadFrame(h, call, outcome);
      case Closing(_, _) => CloseFrame(h, call, outcome);
    }
  }

  lemma StepFrame(h: Host, e: Event)
    requires CanHappen(h, e) && forall sid :: sid in h.states ==> sid < h.next
    ensures Frame(h, Step(h, e))
  {
    match e {
      case AttachWindow(id, zoom, width, height) =>
        SameFrame(h, h);
        AttachWindowFrame(h, Window(id, false, zoom, width, height, {}));
      case DetachWindow => DetachFrame(h);
      case RendererReset => ResetFrame(h);
      case GenerationUnavailable(generationId) =>
        DeactivateAllFrame(h, SessionsOf(h, generationId), true);
      case BeginCalled(designId, candidate, replaced) => BeginCutoverFrame(h, designId, candidate, replaced);
      case ShowCalled(input) => ShowFrame(h, input);
      case RefreshCalled(designId, generationId, requestId) => RefreshFrame(h, designId, generationId, requestId);
      case RollbackCalled(lease) => RollbackFrame(h, lease);
      case HideCalled(designId, requestId) => HideFrame(h, designId, requestId);
      case CloseCalled(designId) => CloseCalledFrame(h, designId);
      case ApproveCalled(designId, linkId) => ApproveFrame(h, designId, linkId);
      case Resumed(call, outcome) => ResumedFrame(h, call, outcome);
      case _ => SurroundingsFrame(h, e);
    }
  }

  /** Between any two states of a run. */
  lemma {:induction false} RunFrame(events: seq<Event>, hosts: seq<Host>, i: nat, j: nat)
    requires Run(events, hosts) && i <= j < |hosts|
    ensures Frame(hosts[i], hosts[j])
    decreases j - i
  {
    if i == j {
      SameFrame(hosts[i], hosts[j]);
    } else {
      RunFrame(events, hosts, i, j - 1);
      RunKeeps(events, hosts, j - 1);
      StepFrame(hosts[j - 1], events[j - 1]);
      FrameTwice(hosts[i], hosts[j - 1], hosts[j]);
    }
  }

  /** While the renderer's epoch lasts, the request ids a session accepts never go down. */
  lemma AcceptedIdsGrow(events: seq<Event>, hosts: seq<Host>, i: nat, j: nat, sid: SessionId)
    requires Run(events, hosts) && i <= j < |hosts| && sid in hosts[i].states
    ensures sid in hosts[j].states && hosts[i].rendererEpoch <= hosts[j].rendererEpoch
    ensures hosts[j].rendererEpoch == hosts[i].rendererEpoch ==>
              hosts[i].states[sid].requestId <= hosts[j].states[sid].requestId
  {
    RunFrame(events, hosts, i, j);
  }

  /** In a run, every token and view a session holds was given out before. */
  lemma FencesAreOld(events: seq<Event>, hosts: seq<Host>, i: nat, sid: SessionId)
    requires Run(events, hosts) && i < |hosts| && sid in hosts[i].states
    ensures hosts[i].states[sid].fenceToken.Some? ==> hosts[i].states[sid].fenceToken.value < hosts[i].next
    ensures hosts[i].states[sid].view.Some? ==> hosts[i].states[sid].view.value.id < hosts[i].next
  {
    RunFrame(events, hosts, 0, i);
    assert NewFrame(hosts[i].states[sid], hosts[0].next, hosts[i].next);
  }
}
