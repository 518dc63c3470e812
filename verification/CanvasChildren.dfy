/**
 * The views the window really holds. They are exactly the views of the attached sessions
 * after every step but one: an activation that sets its view on a session which another
 * activation has attached meanwhile leaves that other view in the window.
 */
module CanvasChildren {
  import opened Wrappers
  import opened CanvasBounds
  import opened DesignCanvas
  import opened CanvasSafety
  import opened CanvasFrames

  ghost function AttachedViews(h: Host): set<nat> {
    set sid, v | sid in h.states && v in AttachedView(h.states[sid]) :: v
  }

  ghost predicate ChildrenMatch(h: Host) {
    LiveWindow(h.window) ==> h.window.value.children == AttachedViews(h)
  }

  ghost predicate OneAttached(h: Host) {
    forall a, b :: ShownIn(h, a) && ShownIn(h, b) ==> a == b
  }

  lemma InvOneAttached(h: Host)
    requires Inv(h)
    ensures OneAttached(h)
  {
    forall a, b | ShownIn(h, a) && ShownIn(h, b) ensures a == b {
      assert RequestedIn(h, a) && RequestedIn(h, b);
    }
  }

  /** The same views are attached, by sessions that may have changed otherwise or come new. */
  ghost predicate SameViews(h: Host, g: Host) {
    && g.window == h.window && h.states.Keys <= g.states.Keys
    && (forall sid :: sid in h.states ==> AttachedView(g.states[sid]) == AttachedView(h.states[sid]))
    && (forall sid :: sid in g.states && sid !in h.states ==> AttachedView(g.states[sid]) == {})
  }

  lemma SameViewsMatch(h: Host, g: Host)
    requires ChildrenMatch(h) && SameViews(h, g)
    ensures ChildrenMatch(g)
  {
  }

  lemma PutMatches(h: Host, sid: SessionId, t: Session)
    requires Inv(h) && ChildrenMatch(h) && sid in h.states && AttachedView(t) <= AttachedView(h.states[sid])
    ensures ChildrenMatch(Put(h, sid, t))
  {
    InvOneAttached(h);
    var g := Put(h, sid, t);
    var gone := AttachedView(h.states[sid]) - AttachedView(t);
    assert AttachedViews(g) == AttachedViews(h) - gone by {
      forall v | v in AttachedViews(h) - gone ensures v in AttachedViews(g) {
        var other :| other in h.states && v in AttachedView(h.states[other]);
        assert v in AttachedView(g.states[other]);
      }
      forall v | v in AttachedViews(g) ensures v in AttachedViews(h) - gone {
        var other :| other in g.states && v in AttachedView(g.states[other]);
        assert v in AttachedView(h.states[other]);
        if v in gone { assert ShownIn(h, sid) && ShownIn(h, other); }
      }
    }
  }

  lemma AttachMatches(h: Host, sid: SessionId)
    requires Inv(h) && ChildrenMatch(h) && sid in h.states
    ensures ChildrenMatch(Attach(h, sid))
  {
    var g := Attach(h, sid);
    if g != h {
      var v := h.states[sid].view.value.id;
      assert AttachedViews(g) == AttachedViews(h) + {v} by {
        assert v in AttachedView(g.states[sid]);
        forall u | u in AttachedViews(h) ensures u in AttachedViews(g) {
          var other :| other in h.states && u in AttachedView(h.states[other]);
          assert u in AttachedView(g.states[other]);
        }
        forall u | u in AttachedViews(g) ensures u in AttachedViews(h) + {v} {
          var other :| other in g.states && u in AttachedView(g.states[other]);
          if other != sid { assert u in AttachedView(h.states[other]); }
        }
      }
    }
  }

  lemma PlaceMatches(h: Host, sid: SessionId, bounds: Bounds)
    requires Inv(h) && ChildrenMatch(h) && sid in h.states
    ensures ChildrenMatch(PlaceAndAttach(h, sid, bounds))
  {
    PutMatches(h, sid, Deactivate(h.states[sid], true, h.now));
    AttachMatches(h, sid);
  }

  lemma DeactivateAllMatches(h: Host, targets: set<SessionId>, preserveLinks: bool)
    requires Inv(h) && ChildrenMatch(h)
    ensures ChildrenMatch(DeactivateAll(h, targets, preserveLinks))
  {
    InvOneAttached(h);
    var g := DeactivateAll(h, targets, preserveLinks);
    var gone := ViewsOf(h, targets);
    assert AttachedViews(g) == AttachedViews(h) - gone by {
      forall v | v in AttachedViews(h) - gone ensures v in AttachedViews(g) {
        var other :| other in h.states && v in AttachedView(h.states[other]);
        assert v in AttachedView(g.states[other]);
      }
      forall v | v in AttachedViews(g) ensures v in AttachedViews(h) - gone {
        var other :| other in g.states && v in AttachedView(g.states[other]);
        assert v in AttachedView(h.states[other]);
        if v in gone {
          var sid :| sid in targets && sid in h.states && v in AttachedView(h.states[sid]);
          assert ShownIn(h, sid) && ShownIn(h, other);
        }
      }
    }
  }

  lemma WithSessionMatches(h: Host, designId: DesignId)
    requires Inv(h) && ChildrenMatch(h)
    ensures ChildrenMatch(WithSession(h, designId))
  {
    SameViewsMatch(h, WithSession(h, designId));
  }

  lemma StartBeginMatches(h: Host, sid: SessionId, candidate: Identity, replaced: Option<Identity>, byShow: bool)
    requires ChildrenMatch(h) && sid in h.states
    ensures ChildrenMatch(StartBegin(h, sid, candidate, replaced, byShow))
  {
    SameViewsMatch(h, StartBegin(h, sid, candidate, replaced, byShow));
  }

  lemma RequestMatches(h: Host, sid: SessionId, input: Show)
    requires Inv(h) && ChildrenMatch(h) && sid in h.states
    ensures ChildrenMatch(Request(h, sid, input))
  {
    var others := DeactivateAll(h, OtherSessions(h, input.designId) - {sid}, true);
    DeactivateAllMatches(h, OtherSessions(h, input.designId) - {sid}, true);
    SameViewsMatch(others, Request(h, sid, input));
  }

  lemma PresentMatches(h: Host, sid: SessionId, input: Show)
    requires Inv(h) && ChildrenMatch(h) && sid in h.states
    ensures ChildrenMatch(Present(h, sid, input))
  {
    var s := h.states[sid];
    var replaced := if s.active.Some? then Some(s.active.value.identity) else None;
    StartBeginMatches(h, sid, input.identity, replaced, true);
    PlaceMatches(h, sid, input.bounds);
  }

  lemma ShowMatches(h: Host, input: Show)
    requires Inv(h) && ChildrenMatch(h)
    ensures ChildrenMatch(ShowDesign(h, input))
  {
    var ready := WithSession(h, input.designId);
    WithSessionMatches(h, input.designId);
    WithSessionKeeps(h, input.designId);
    var g := ShowDesign(h, input);
    if g != h && g != ready {
      var sid := RequireSession(h, input.designId).value;
      RequestMatches(ready, sid, input);
      RequestKeeps(ready, input);
      PresentMatches(Request(ready, sid, input), sid, input);
    }
  }

  lemma BeginCutoverMatches(h: Host, designId: DesignId, candidate: Identity, replaced: Option<Identity>)
    requires Inv(h) && ChildrenMatch(h)
    ensures ChildrenMatch(BeginCutover(h, designId, candidate, replaced))
  {
    WithSessionMatches(h, designId);
    if BeginCutover(h, designId, candidate, replaced) != h {
      StartBeginMatches(WithSession(h, designId), RequireSession(h, designId).value, candidate, replaced, false);
    }
  }

  lemma AcceptMatches(h: Host, sid: SessionId, requestId: int)
    requires ChildrenMatch(h) && sid in h.states
    ensures ChildrenMatch(h.(states := h.states[sid := h.states[sid].(requestId := requestId)]))
  {
    SameViewsMatch(h, h.(states := h.states[sid := h.states[sid].(requestId := requestId)]));
  }

  lemma RefreshMatches(h: Host, designId: DesignId, generationId: string, requestId: int)
    requires Inv(h) && ChildrenMatch(h)
    ensures ChildrenMatch(Refresh(h, designId, generationId, requestId))
  {
    if designId in h.sessions && Accepts(h.states[h.sessions[designId]], h.rendererEpoch, requestId) {
      var sid := h.sessions[designId];
      var s := h.states[sid];
      var accepted := h.(states := h.states[sid := s.(requestId := requestId)]);
      AcceptKeeps(h, sid, requestId);
      AcceptMatches(h, sid, requestId);
      var g := Refresh(h, designId, generationId, requestId);
      if g.states == accepted.states && g.window == accepted.window {
        SameViewsMatch(accepted, g);
      } else {
        ShowMatches(accepted, s.requestedShow.value.(requestId := requestId));
      }
    }
  }

  lemma HideMatches(h: Host, designId: DesignId, requestId: int)
    requires Inv(h) && ChildrenMatch(h)
    ensures ChildrenMatch(Hide(h, designId, requestId))
  {
    if Hide(h, designId, requestId) != h {
      var sid := h.sessions[designId];
      PutMatches(h, sid, Deactivate(h.states[sid].(requestId := requestId), true, h.now));
    }
  }

  lemma CloseMatches(h: Host, designId: DesignId)
    requires Inv(h) && ChildrenMatch(h)
    ensures ChildrenMatch(Close(h, designId))
  {
    if Close(h, designId) != h {
      var sid := h.sessions[designId];
      var t := Deactivate(h.states[sid], false, h.now).(closing := true);
      PutMatches(h, sid, t);
      SameViewsMatch(Put(h, sid, t), Close(h, designId));
    }
  }

  /** No session the host no longer maps has anything attached, so a new window starts empty. */
  lemma DetachedNothing(h: Host)
    requires Inv(h)
    ensures AttachedViews(Detach(h)) == {} && AttachedViews(NextEpoch(Detach(h))) == {}
  {
  }

  lemma ResetMatches(h: Host)
    requires Inv(h) && ChildrenMatch(h)
    ensures ChildrenMatch(NextEpoch(DeactivateAll(h, Mapped(h), false)))
  {
  }

  lemma BeginMatches(h: Host, id: CallId, outcome: Outcome)
    requires Inv(h) && ChildrenMatch(h) && id in h.calls && h.calls[id].Beginning?
    ensures ChildrenMatch(ResumeBegin(h, id, outcome))
  {
    var c := h.calls[id];
    if outcome.Rejected? {
      SameViewsMatch(h, BeginFails(h, id));
    } else if c.originsLeft.Some? {
      SameViewsMatch(h, ClearOrigins(h, id, OneLess(c.originsLeft.value)));
    } else {
      var off := Put(h, c.sid, DestroyView(h.states[c.sid]));
      PutMatches(h, c.sid, DestroyView(h.states[c.sid]));
      SameViewsMatch(off, ClearOrigins(off, id, |h.states[c.sid].lastOrigins|));
    }
  }

  lemma DropViewMatches(h: Host, sid: SessionId)
    requires Inv(h) && ChildrenMatch(h) && sid in h.states
    ensures ChildrenMatch(DropView(h, sid))
  {
    PutMatches(h, sid, DestroyView(h.states[sid].(mode := DenyAll)));
  }

  lemma FinishMatches(h: Host, id: CallId)
    requires Inv(h) && ChildrenMatch(h) && id in h.calls && h.calls[id].Activating?
    ensures ChildrenMatch(FinishActivation(h, id))
  {
    var c := h.calls[id];
    var s := h.states[c.sid];
    DropViewMatches(h, c.sid);
    if s.requestedShow.Some? { PlaceMatches(h, c.sid, s.requestedShow.value.bounds); }
  }

  /** The activation sets its view in this step. */
  predicate SetsView(c: Call, outcome: Outcome) {
    Installs(c, outcome) && !outcome.Viewless?
  }

  ghost predicate ViewsOld(h: Host) {
    forall sid :: sid in h.states && h.states[sid].view.Some? ==> h.states[sid].view.value.id < h.next
  }

  lemma RunViewsOld(events: seq<Event>, hosts: seq<Host>, i: nat)
    requires Run(events, hosts) && i < |hosts|
    ensures ViewsOld(hosts[i])
  {
    var h := hosts[i];
    forall sid | sid in h.states && h.states[sid].view.Some? ensures h.states[sid].view.value.id < h.next {
      FencesAreOld(events, hosts, i, sid);
    }
  }

  lemma InstallMatches(h: Host, id: CallId, route: Route)
    requires Inv(h) && ChildrenMatch(h) && id in h.calls && h.calls[id].Activating?
    requires ViewsOld(h)
    ensures ChildrenMatch(Install(h, id, route)) <==> !(LiveWindow(h.window) && h.states[h.calls[id].sid].attached)
  {
    var sid := h.calls[id].sid;
    var s := h.states[sid];
    var g := Install(h, id, route);
    if s.attached {
      assert h.next in AttachedView(g.states[sid]);
      assert h.next in AttachedViews(g);
    } else {
      SameViewsMatch(h, g);
    }
  }

  lemma ResolveMatches(h: Host, id: CallId, outcome: Outcome)
    requires Inv(h) && ChildrenMatch(h) && id in h.calls && h.calls[id].Activating? && h.calls[id].stage.Resolving?
    ensures ChildrenMatch(ResumeActivation(h, id, outcome))
  {
    var g := ResumeActivation(h, id, outcome);
    if SameViews(h, g) {
      SameViewsMatch(h, g);
    } else {
      PutMatches(h, h.calls[id].sid, DestroyView(h.states[h.calls[id].sid]));
    }
  }

  lemma LoadMatches(h: Host, id: CallId, outcome: Outcome)
    requires Inv(h) && ChildrenMatch(h) && id in h.calls && h.calls[id].Activating? && h.calls[id].stage.Loading?
    ensures ChildrenMatch(ResumeActivation(h, id, outcome))
  {
    var g := ResumeActivation(h, id, outcome);
    if SameViews(h, g) {
      SameViewsMatch(h, g);
    } else {
      DropViewMatches(h, h.calls[id].sid);
    }
  }

  lemma SetStageMatches(h: Host, id: CallId, stage: Stage)
    requires ChildrenMatch(h) && id in h.calls && h.calls[id].Activating?
    ensures ChildrenMatch(SetStage(h, id, stage))
  {
    SameViewsMatch(h, SetStage(h, id, stage));
  }

  lemma OpenOnlyMatches(h: Host, id: CallId, route: Route)
    requires ChildrenMatch(h) && id in h.calls && h.calls[id].Activating? && h.calls[id].sid in h.states
    ensures ChildrenMatch(OpenOnly(h, id, route))
  {
    SameViewsMatch(h, OpenOnly(h, id, route));
  }

  lemma SettleMatches(h: Host, id: CallId, normally: bool)
    requires ChildrenMatch(h) && id in h.calls && h.calls[id].Activating? && h.calls[id].sid in h.states
    ensures ChildrenMatch(SettleActivation(h, id, normally))
  {
    SameViewsMatch(h, SettleActivation(h, id, normally));
  }

  lemma OpeningMatches(h: Host, id: CallId, outcome: Outcome)
    requires Inv(h) && ChildrenMatch(h) && id in h.calls && h.calls[id].Activating? && !SetsView(h.calls[id], outcome)
    requires h.calls[id].stage.ClosingLease? || h.calls[id].stage.SettingProxy?
    ensures ChildrenMatch(ResumeActivation(h, id, outcome))
  {
    var stage := h.calls[id].stage;
    OpenOnlyMatches(h, id, stage.route);
    SetStageMatches(h, id, Returning(false));
    SetStageMatches(h, id, SettingProxy(stage.route));
  }

  lemma StageMatches(h: Host, id: CallId, outcome: Outcome)
    requires Inv(h) && ChildrenMatch(h) && id in h.calls && h.calls[id].Activating? && !SetsView(h.calls[id], outcome)
    ensures ChildrenMatch(ResumeActivation(h, id, outcome))
  {
    match h.calls[id].stage {
      case Resolving => ResolveMatches(h, id, outcome);
      case Loading(_, _) => LoadMatches(h, id, outcome);
      case Loaded => FinishMatches(h, id);
      case Releasing => SetStageMatches(h, id, ResumeActivation(h, id, outcome).calls[id].stage);
      case Returning(normally) => SettleMatches(h, id, normally);
      case _ => OpeningMatches(h, id, outcome);
    }
  }

  lemma ReloadMatches(h: Host, id: CallId, outcome: Outcome)
    requires Inv(h) && ChildrenMatch(h) && id in h.calls && h.calls[id].Reloading?
    ensures ChildrenMatch(ResumeReload(h, id, outcome))
  {
    DropViewMatches(h, h.calls[id].sid);
  }

  lemma ResumeShowMatches(h: Host, id: CallId)
    requires Inv(h) && ChildrenMatch(h) && id in h.calls && h.calls[id].ShowAfterCommit?
    ensures ChildrenMatch(ResumeShow(h, id))
  {
    var s := h.states[h.calls[id].sid];
    EndCallKeeps(h, id);
    SameViewsMatch(h, EndCall(h, id));
    if s.requestedShow.Some? { ShowMatches(EndCall(h, id), s.requestedShow.value); }
  }

  lemma OtherResumedMatches(h: Host, id: CallId, outcome: Outcome)
    requires Inv(h) && ChildrenMatch(h) && CanHappen(h, Resumed(id, outcome)) && !h.calls[id].Activating?
    ensures ChildrenMatch(Step(h, Resumed(id, outcome)))
  {
    if h.calls[id].Beginning? {
      BeginMatches(h, id, outcome);
    } else if h.calls[id].ShowAfterCommit? {
      ResumeShowMatches(h, id);
    } else if h.calls[id].Reloading? {
      ReloadMatches(h, id, outcome);
    } else {
      SameViewsMatch(h, Step(h, Resumed(id, outcome)));
    }
  }

  /** Driven leases, links, a view dying and time leave the same views attached. */
  lemma SessionMatches(h: Host, e: Event)
    requires ChildrenMatch(h) && CanHappen(h, e)
    requires e.CommitCalled? || e.RollbackCalled? || e.ApproveCalled? || e.LinkRequested? || e.ViewDestroyed?
    ensures ChildrenMatch(Step(h, e))
  {
    SameViewsMatch(h, Step(h, e));
  }

  lemma SurroundingsMatch(h: Host, e: Event)
    requires ChildrenMatch(h) && CanHappen(h, e)
    requires e.WindowDestroyed? || e.WindowResized? || e.TimePasses?
    ensures ChildrenMatch(Step(h, e))
  {
    assert Step(h, e).states == h.states;
  }

  /** An activation sets its view on a session that another has attached to the live window meanwhile. */
  predicate LeavesViewBehind(h: Host, e: Event) {
    && LiveWindow(h.window) && e.Resumed? && e.call in h.calls && SetsView(h.calls[e.call], e.outcome)
    && h.calls[e.call].sid in h.states && h.states[h.calls[e.call].sid].attached
  }

  lemma OtherStepsMatch(h: Host, e: Event)
    requires Inv(h) && ChildrenMatch(h) && CanHappen(h, e) && !e.Resumed?
    ensures ChildrenMatch(Step(h, e))
  {
    match e {
      case AttachWindow(_, _, _, _) => DetachedNothing(h);
      case DetachWindow =>
      case BeginCalled(designId, candidate, replaced) => BeginCutoverMatches(h, designId, candidate, replaced);
      case ShowCalled(input) => ShowMatches(h, input);
      case HideCalled(designId, requestId) => HideMatches(h, designId, requestId);
      case RefreshCalled(designId, generationId, requestId) => RefreshMatches(h, designId, generationId, requestId);
      case CloseCalled(designId) => CloseMatches(h, designId);
      case GenerationUnavailable(generationId) =>
        DeactivateAllMatches(h, SessionsOf(h, generationId), true);
      case RendererReset => ResetMatches(h);
      case _ =>
        if e.WindowDestroyed? || e.WindowResized? || e.TimePasses? { SurroundingsMatch(h, e); }
        else { SessionMatches(h, e); }
    }
  }

  /** The window keeps exactly the attached sessions' views in every step but that one. */
  lemma StepMatchesIff(h: Host, e: Event)
    requires Inv(h) && ChildrenMatch(h) && CanHappen(h, e)
    requires ViewsOld(h)
    ensures ChildrenMatch(Step(h, e)) <==> !LeavesViewBehind(h, e)
  {
    if !e.Resumed? {
      OtherStepsMatch(h, e);
    } else if !h.calls[e.call].Activating? {
      OtherResumedMatches(h, e.call, e.outcome);
    } else if SetsView(h.calls[e.call], e.outcome) {
      InstallMatches(h, e.call, h.calls[e.call].stage.route);
    } else {
      StageMatches(h, e.call, e.outcome);
    }
  }

  lemma {:induction false} RunMatches(events: seq<Event>, hosts: seq<Host>, i: nat)
    requires Run(events, hosts) && i < |hosts| && forall k :: 0 <= k < i ==> !LeavesViewBehind(hosts[k], events[k])
    ensures ChildrenMatch(hosts[i])
  {
    if i > 0 {
      RunMatches(events, hosts, i - 1);
      RunKeeps(events, hosts, i - 1);
      RunViewsOld(events, hosts, i - 1);
      StepMatchesIff(hosts[i - 1], events[i - 1]);
    }
  }

  /** So the window holds at most one view, and it is the one requested. */
  lemma OneViewInWindow(events: seq<Event>, hosts: seq<Host>, i: nat)
    requires Run(events, hosts) && i < |hosts| && forall k :: 0 <= k < i ==> !LeavesViewBehind(hosts[k], events[k])
    requires LiveWindow(hosts[i].window)
    ensures hosts[i].window.value.children == {} ||
            exists sid :: ShownIn(hosts[i], sid) && RequestedIn(hosts[i], sid) &&
              hosts[i].window.value.children == AttachedView(hosts[i].states[sid])
    ensures |hosts[i].window.value.children| <= 1
  {
    RunMatches(events, hosts, i);
    OneDesignAttached(events, hosts, i);
    var h := hosts[i];
    if v :| v in AttachedViews(h) {
      var sid :| sid in h.states && v in AttachedView(h.states[sid]);
      assert ShownIn(h, sid);
      assert AttachedViews(h) == {v};
    }
  }
}
