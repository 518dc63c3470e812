/**
 * What each event of a smoke target changes and when its verdict is safe, told by fields and
 * events alone, and the course of a target that nothing disturbs.
 */
module SmokeVerdicts {
  import opened Wrappers
  import opened SmokeRuns
  import opened SmokeTarget

  // ----- Verdicts -----

  /** The run a verdict is about: the one known, or without one the task's that started last. */
  predicate About(t: Target, last: Option<Snapshot>, run: Run) {
    && last.Some? && run in last.value.runs
    && if t.runId.Some? then run.id == t.runId.value
       else
         && t.taskId == Some(run.taskId)
         && forall r :: r in last.value.runs && r.taskId == run.taskId ==> r.startedAt <= run.startedAt
  }

  predicate NoneToJudge(t: Target, last: Option<Snapshot>) {
    last.Some? ==> forall r :: r in last.value.runs ==>
      if t.runId.Some? then r.id != t.runId.value else t.taskId != Some(r.taskId)
  }

  /** The last listing that succeeded, with the final one where there is one. */
  function LastListed(t: Target, e: Event): Option<Snapshot> {
    if e.FinalListed? && e.listed.Some? then e.listed else t.snapshot
  }

  /**
   * The verdict is safe if and only if the closure has finished, the cancellation applied, if any,
   * was safe, and the run it is about ended contained; without a run, if none is known.
   */
  predicate Verdict(t: Target, safe: bool, run: Option<Run>) {
    safe <==>
      && t.closure == Finished && (t.applied ==> t.cancellation.Done? && t.cancellation.result.safe)
      && if run.Some? then run.value.status in {Completed, Failed, Interrupted} else t.runId.None?
  }

  /** The outer flow's verdict is right for what was listed last. */
  predicate JudgedRight(t: Target, last: Option<Snapshot>, outer: Outer) {
    && outer.Returned? && Verdict(t, outer.safe, outer.run)
    && if outer.run.Some? then About(t, last, outer.run.value) else NoneToJudge(t, last)
  }

  lemma Judged(t: Target, last: Option<Snapshot>)
    requires t.applied ==> t.cancellation.Done?
    requires t.cancellationSafe <==> (t.applied ==> t.cancellation.Done? && t.cancellation.result.safe)
    ensures JudgedRight(t, last, Judge(t.(snapshot := last)).outer)
  {
  }

  predicate Concludes(e: Event) {
    e == BoundaryReached(BoundarySettled) || e.ClosureWaitEnds?
  }

  /** Which steps return, and what their verdict is. */
  lemma ReturnsIff(t: Target, e: Event)
    requires Inv(t) && !t.outer.Returned? && CanHappen(t, e)
    ensures Step(t, e).outer.Returned? <==> e.FinalListed? || (Concludes(e) && t.snapshot.Some?)
    ensures Step(t, e).outer.Returned? ==> JudgedRight(t, LastListed(t, e), Step(t, e).outer)
  {
    if ClosureEvent(e) {
      ClosureKeepsOuter(t, e);
    } else if e.FinalListed? || Concludes(e) {
      assert t.(snapshot := t.snapshot) == t;
      Judged(t, LastListed(t, e));
    }
  }

  // ----- What changes each field -----

  /** The run a poll finds: the known one, in what it listed. */
  function PolledRun(t: Target, e: Event): Option<Run> {
    if e.Polled? && e.listed.Some? && t.runId.Some? then FindRun(e.listed.value.runs, t.runId.value) else None
  }

  predicate SeesInteraction(t: Target, e: Event) {
    PolledRun(t, e).Some? && PolledRun(t, e).value.id in e.listed.value.interactions
  }

  /** A poll finds the run at its end, contained or not, with no interaction asked for. */
  predicate SeesEnd(t: Target, e: Event) {
    PolledRun(t, e).Some? && Terminal(PolledRun(t, e).value.status) && !SeesInteraction(t, e)
  }

  /** A poll finds the run at work when the pass is to stop. */
  predicate SeesStop(t: Target, e: Event) {
    PolledRun(t, e).Some? && !Terminal(PolledRun(t, e).value.status) && e.stopping
  }

  /** The closure gives up on its run, and waits for the cancellation. */
  predicate GivesUp(t: Target, e: Event) {
    e.PollExpired? || SeesInteraction(t, e) || SeesStop(t, e)
  }

  predicate CutShort(e: Event) {
    e.BoundaryReached? && e.boundary in {BoundaryTimedOut, BoundaryInterrupted}
  }

  predicate Applies(e: Event) {
    e.ClosureApplies? || e.OuterApplies?
  }

  /** A target has timed out exactly where one of its deadlines has passed. */
  predicate TimedOutIff(t: Target, e: Event, after: Target) {
    after.timedOut <==>
      || t.timedOut || e.PollExpired? || e == BoundaryReached(BoundaryTimedOut)
      || (e.TaskCreated? && e.task.Some? && !e.stopping && e.expired)
  }

  predicate InteractionIff(t: Target, e: Event, after: Target) {
    after.unexpectedInteraction <==> t.unexpectedInteraction || SeesInteraction(t, e)
  }

  /** The task and its run are known from creating it and starting it, and from a cancellation that found one. */
  predicate KnownIff(t: Target, e: Event, after: Target)
    requires Applies(e) ==> t.cancellation.Done?
  {
    && after.taskId == (if e.TaskCreated? && e.task.Some? then e.task else t.taskId)
    && after.runId == (if e.RunStarted? && e.started.Some? then e.started
                       else if Applies(e) && t.cancellation.result.runId.Some? then t.cancellation.result.runId
                       else t.runId)
    && after.actual == (if e.StoreChanges? then Some(e.run) else t.actual)
    && (after.rejected <==> t.rejected || e == RunStarted(None))
  }

  /** The snapshot is what was listed last. */
  predicate ListedLast(t: Target, e: Event, after: Target)
    requires Applies(e) ==> t.cancellation.Done?
  {
    after.snapshot ==
    if e.Polled? && e.listed.Some? && t.runId.Some? then e.listed
    else if e.FinalListed? && e.listed.Some? then e.listed
    else if e.EvidenceListed? then Some(e.snapshot)
    else if Applies(e) && t.cancellation.result.snapshot.Some? then t.cancellation.result.snapshot
    else t.snapshot
  }

  /** The one cancellation begins where the closure gives up or the boundary cuts it short, for what is known then. */
  predicate CancelsIff(t: Target, e: Event, after: Target)
    requires Applies(e) ==> t.cancellation.Done?
  {
    && after.cancellation ==
       (if t.cancellation == NotBegun then
          if GivesUp(t, e) || CutShort(e) then Out(t.taskId, t.runId) else NotBegun
        else if e.CancellationDone? then Done(e.result)
        else if t.cancellation.Out? && e.CancellationGivesUp? then
          Done(CancelResult(None, t.cancellation.runId, false))
        else t.cancellation)
    && (after.applied <==> t.applied || Applies(e))
    && (after.cancellationSafe <==> t.cancellationSafe && (Applies(e) ==> t.cancellation.result.safe))
  }

  /** The closure's ways on: it ends early only where something failed, disappeared, was to stop or was not safe. */
  predicate ClosureIff(t: Target, e: Event, after: Target)
    requires Applies(e) ==> t.cancellation.Done?
  {
    && (after.closure == Creating <==> t.closure == Creating && !e.TaskCreated?)
    && (after.closure == StartingRun <==>
          || (t.closure == StartingRun && !e.RunStarted?)
          || (e.TaskCreated? && e.task.Some? && !e.stopping && !e.expired))
    && (after.closure == Polling <==>
          || (e.RunStarted? && e.started.Some?)
          || (t.closure == Polling && !e.PollExpired? &&
              (e.Polled? ==> PolledRun(t, e).Some? && !GivesUp(t, e) && !SeesEnd(t, e))))
    && (after.closure == AwaitingCancellation <==>
          GivesUp(t, e) || (t.closure == AwaitingCancellation && !e.ClosureApplies?))
    && (after.closure == GatheringEvidence <==>
          || SeesEnd(t, e) || (t.closure == GatheringEvidence && !e.EvidenceDone?)
          || (e.ClosureApplies? && t.cancellationSafe && t.cancellation.result.safe))
  }

  predicate KeepsTally(t: Target, e: Event, after: Target)
    requires Applies(e) ==> t.cancellation.Done?
  {
    TimedOutIff(t, e, after) && InteractionIff(t, e, after) && KnownIff(t, e, after) && ListedLast(t, e, after)
  }

  /** A poll that goes on, or ends the closure's polling without a cancellation. */
  lemma PollTells(t: Target, e: Event, after: Target)
    requires t.closure == Polling && t.runId.Some? && e.Polled? && e.listed.Some? && !GivesUp(t, e)
    requires after == t.(snapshot := e.listed, closure := after.closure)
    requires after.closure == if PolledRun(t, e).None? then Finished
                              else if SeesEnd(t, e) then GatheringEvidence else Polling
    ensures KeepsTally(t, e, after) && CancelsIff(t, e, after) && ClosureIff(t, e, after)
  {
  }

  lemma PollGivesUpTells(t: Target, e: Event, after: Target)
    requires t.closure == Polling && t.runId.Some? && e.Polled? && e.listed.Some? && GivesUp(t, e)
    requires after == t.(snapshot := e.listed, closure := AwaitingCancellation, cancellation := after.cancellation,
                         unexpectedInteraction := t.unexpectedInteraction || SeesInteraction(t, e))
    requires after.cancellation == if t.cancellation == NotBegun then Out(t.taskId, t.runId) else t.cancellation
    ensures KeepsTally(t, e, after) && CancelsIff(t, e, after) && ClosureIff(t, e, after)
  {
  }

  lemma PollGoes(t: Target, snapshot: Snapshot, stopping: bool)
    requires t.closure == Polling && t.runId.Some? && !GivesUp(t, Polled(Some(snapshot), stopping))
    ensures var e := Polled(Some(snapshot), stopping);
            Poll(t, snapshot, stopping) ==
            t.(snapshot := Some(snapshot),
               closure := if PolledRun(t, e).None? then Finished
                          else if SeesEnd(t, e) then GatheringEvidence else Polling)
  {
  }

  lemma PollGivesUp(t: Target, snapshot: Snapshot, stopping: bool)
    requires t.closure == Polling && t.runId.Some? && GivesUp(t, Polled(Some(snapshot), stopping))
    ensures var e, after := Polled(Some(snapshot), stopping), Poll(t, snapshot, stopping);
            KeepsTally(t, e, after) && CancelsIff(t, e, after) && ClosureIff(t, e, after)
  {
    PollGivesUpTells(t, Polled(Some(snapshot), stopping), Poll(t, snapshot, stopping));
  }

  lemma CreateTells(t: Target, e: Event)
    requires CanHappen(t, e) && e.TaskCreated?
    ensures KeepsTally(t, e, ClosureStep(t, e)) && CancelsIff(t, e, ClosureStep(t, e))
    ensures ClosureIff(t, e, ClosureStep(t, e))
  {
    var after := ClosureStep(t, e);
    assert after == t.(taskId := after.taskId, closure := after.closure, timedOut := after.timedOut);
  }

  lemma StartTells(t: Target, e: Event)
    requires CanHappen(t, e) && e.RunStarted?
    ensures KeepsTally(t, e, ClosureStep(t, e)) && CancelsIff(t, e, ClosureStep(t, e))
    ensures ClosureIff(t, e, ClosureStep(t, e))
  {
  }

  lemma PollEndsTells(t: Target, e: Event)
    requires CanHappen(t, e) && (e.PollExpired? || (e.Polled? && (e.listed.None? || t.runId.None?)))
    ensures KeepsTally(t, e, ClosureStep(t, e)) && CancelsIff(t, e, ClosureStep(t, e))
    ensures ClosureIff(t, e, ClosureStep(t, e))
  {
  }

  lemma EvidenceTells(t: Target, e: Event)
    requires CanHappen(t, e) && (e.EvidenceListed? || e.EvidenceDone? || e.ClosureApplies?)
    ensures KeepsTally(t, e, ClosureStep(t, e)) && CancelsIff(t, e, ClosureStep(t, e))
    ensures ClosureIff(t, e, ClosureStep(t, e))
  {
  }

  lemma CancellationTells(t: Target, e: Event)
    requires CanHappen(t, e) && (e.StoreChanges? || e.CancellationDone? || e.CancellationGivesUp? || e.OuterApplies?)
    ensures KeepsTally(t, e, Step(t, e)) && CancelsIff(t, e, Step(t, e)) && ClosureIff(t, e, Step(t, e))
  {
  }

  lemma CutShortTells(t: Target, e: Event)
    requires CanHappen(t, e) && CutShort(e)
    ensures KeepsTally(t, e, Step(t, e)) && CancelsIff(t, e, Step(t, e)) && ClosureIff(t, e, Step(t, e))
  {
  }

  /** The events that change nothing but the outer flow, and the snapshot where the final listing succeeds. */
  lemma OnlyOuterTells(t: Target, e: Event, after: Target)
    requires Concludes(e) || e.FinalListed?
    requires after == t.(outer := after.outer, snapshot := LastListed(t, e))
    ensures KeepsTally(t, e, after) && CancelsIff(t, e, after) && ClosureIff(t, e, after)
  {
  }

  lemma JudgeTells(t: Target)
    ensures Judge(t) == t.(outer := Judge(t).outer)
  {
  }

  lemma ConcludeTells(t: Target, e: Event)
    requires CanHappen(t, e) && (Concludes(e) || e.FinalListed?)
    ensures Step(t, e) == t.(outer := Step(t, e).outer, snapshot := LastListed(t, e))
  {
    JudgeTells(if e.FinalListed? && e.listed.Some? then t.(snapshot := e.listed) else t);
  }

  /** What an event of the closure changes. */
  lemma ClosureTells(t: Target, e: Event)
    requires CanHappen(t, e) && ClosureEvent(e)
    ensures var after := ClosureStep(t, e);
            KeepsTally(t, e, after) && CancelsIff(t, e, after) && ClosureIff(t, e, after)
  {
    if e.TaskCreated? {
      CreateTells(t, e);
    } else if e.RunStarted? {
      StartTells(t, e);
    } else if e.EvidenceListed? || e.EvidenceDone? || e.ClosureApplies? {
      EvidenceTells(t, e);
    } else if e.PollExpired? || e.listed.None? || t.runId.None? {
      PollEndsTells(t, e);
    } else if GivesUp(t, e) {
      PollGivesUp(t, e.listed.value, e.stopping);
    } else {
      PollGoes(t, e.listed.value, e.stopping);
      PollTells(t, e, Poll(t, e.listed.value, e.stopping));
    }
  }

  /** What an event changes: each field exactly as the event, and what was known, say. */
  lemma StepTells(t: Target, e: Event)
    requires CanHappen(t, e)
    ensures var after := Step(t, e);
            && TimedOutIff(t, e, after) && InteractionIff(t, e, after) && KnownIff(t, e, after)
            && ListedLast(t, e, after) && CancelsIff(t, e, after) && ClosureIff(t, e, after)
  {
    if ClosureEvent(e) {
      ClosureTells(t, e);
    } else if CutShort(e) {
      CutShortTells(t, e);
    } else if Concludes(e) || e.FinalListed? {
      ConcludeTells(t, e);
      OnlyOuterTells(t, e, Step(t, e));
    } else {
      CancellationTells(t, e);
    }
  }

  /** The target's own flow: a boundary that cuts it short has it wait for the cancellation, then for the closure. */
  lemma OuterOf(t: Target, e: Event)
    requires CanHappen(t, e) && !t.outer.Returned?
    ensures var after := Step(t, e).outer;
            && (CutShort(e) ==> after == ApplyingCancellation(e.boundary))
            && (e.OuterApplies? ==> after == AwaitingClosure(t.outer.boundary))
            && (Concludes(e) && t.snapshot.None? ==> after == FinalListing(t.actual))
            && (!e.BoundaryReached? && !e.OuterApplies? && !e.ClosureWaitEnds? && !e.FinalListed? ==> after == t.outer)
  {
    if ClosureEvent(e) { ClosureKeepsOuter(t, e); }
  }

  // ----- A target that nothing disturbs -----

  /** A run that a poll finds contained and with no interaction is judged safe once its evidence is gathered. */
  lemma UndisturbedPoll(t: Target, snapshot: Snapshot, stopping: bool)
    requires t.closure == Polling && t.outer == AtBoundary && t.cancellationSafe && t.runId.Some?
    requires CanHappen(t, Polled(Some(snapshot), stopping))
    requires var run := FindRun(snapshot.runs, t.runId.value);
             run.Some? && Contained(run.value.status) && run.value.id !in snapshot.interactions
    ensures After(After(After(t, Polled(Some(snapshot), stopping)), EvidenceDone), BoundaryReached(BoundarySettled)) ==
            t.(closure := Finished, snapshot := Some(snapshot),
               outer := Returned(true, FindRun(snapshot.runs, t.runId.value)))
  {
    var gathering := t.(closure := GatheringEvidence, snapshot := Some(snapshot));
    assert After(t, Polled(Some(snapshot), stopping)) == gathering;
    assert After(gathering, EvidenceDone) == gathering.(closure := Finished);
  }

  /** Starting a run that is admitted and later ends: what a target meets when nothing disturbs it. */
  function Undisturbed(run: Run, ended: Run): seq<Event> {
    [TaskCreated(Some(run.taskId), false, false), StoreChanges(run), RunStarted(Some(run.id)), StoreChanges(ended),
     Polled(Some(Snapshot([ended], {})), false), EvidenceDone, BoundaryReached(BoundarySettled)]
  }

  lemma UndisturbedStarts(run: Run, ended: Run)
    requires Earlier(Some(run), Some(ended))
    ensures var events := Undisturbed(run, ended);
            After(After(After(After(Initial(), events[0]), events[1]), events[2]), events[3]) ==
            Initial().(closure := Polling, taskId := Some(run.taskId), runId := Some(run.id), actual := Some(ended))
  {
  }

  lemma ExecThree(t: Target, a: Event, b: Event, c: Event)
    ensures Exec(t, [a, b, c]) == After(After(After(t, a), b), c)
  {
    ExecAppends(t, [], a);
    ExecAppends(t, [a], b);
    ExecAppends(t, [a, b], c);
    assert [] + [a] == [a] && [a] + [b] == [a, b] && [a, b] + [c] == [a, b, c];
  }

  lemma {:induction false} ExecOn(t: Target, first: seq<Event>, rest: seq<Event>)
    ensures Exec(t, first + rest) == Exec(Exec(t, first), rest)
    decreases |rest|
  {
    if rest == [] {
      assert first + rest == first;
    } else {
      var init := rest[..|rest| - 1];
      ExecOn(t, first, init);
      assert first + rest == (first + init) + [rest[|rest| - 1]];
      ExecAppends(t, first + init, rest[|rest| - 1]);
    }
  }

  lemma ExecUndisturbed(run: Run, ended: Run)
    ensures var events := Undisturbed(run, ended);
            var polling := After(After(After(After(Initial(), events[0]), events[1]), events[2]), events[3]);
            Exec(Initial(), events) == After(After(After(polling, events[4]), events[5]), events[6])
  {
    var events := Undisturbed(run, ended);
    ExecOn(Initial(), events[..3], events[3..]);
    assert events[..3] + events[3..] == events && events[..3] == [events[0], events[1], events[2]];
    ExecThree(Initial(), events[0], events[1], events[2]);
    ExecOn(Exec(Initial(), events[..3]), [events[3]], events[4..]);
    assert [events[3]] + events[4..] == events[3..] && events[4..] == [events[4], events[5], events[6]];
    ExecAppends(Exec(Initial(), events[..3]), [], events[3]);
    assert [] + [events[3]] == [events[3]];
    ExecThree(Exec(Exec(Initial(), events[..3]), [events[3]]), events[4], events[5], events[6]);
  }

  /** Such a target is released as safe, whatever the run, with nothing held against it. */
  lemma UndisturbedReturns(run: Run, ended: Run)
    requires Earlier(Some(run), Some(ended)) && Contained(ended.status)
    ensures var t := Exec(Initial(), Undisturbed(run, ended));
            && t.outer == Returned(true, Some(ended)) && !t.timedOut && !t.unexpectedInteraction
            && t.snapshot == Some(Snapshot([ended], {})) && t.actual == Some(ended)
  {
    var polling :=
      Initial().(closure := Polling, taskId := Some(run.taskId), runId := Some(run.id), actual := Some(ended));
    ExecUndisturbed(run, ended);
    UndisturbedStarts(run, ended);
    assert ShowsPast(Snapshot([ended], {}), polling.taskId, Some(ended), None, polling.actual);
    UndisturbedPoll(polling, Snapshot([ended], {}), false);
  }
}
