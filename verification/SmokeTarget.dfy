/**
 * One target of the smoke pass: the lifecycle closure that creates its task and runs it,
 * racing the boundary that times it out or interrupts it. Either side may begin the one
 * cancellation they share, and both wait for it. Beside them stands the run the task really
 * has, which the target knows only from what it is told and from the snapshots it lists.
 */
module SmokeTarget {
  import opened Wrappers
  import opened SmokeRuns

  /** Where the lifecycle closure stands. */
  datatype Closure = Creating | StartingRun | Polling | AwaitingCancellation | GatheringEvidence | Finished

  datatype Boundary = BoundarySettled | BoundaryTimedOut | BoundaryInterrupted

  /**
   * Where the target's own flow stands. The final listing is asked for once the task's run
   * is `since`; a returned target says whether it is safe to release, and the run it judged.
   */
  datatype Outer =
    | AtBoundary
    | ApplyingCancellation(boundary: Boundary)
    | AwaitingClosure(boundary: Boundary)
    | FinalListing(since: Option<Run>)
    | Returned(safe: bool, run: Option<Run>)

  /** The cancellation phase: not begun, out for the task and run known then, or done. */
  datatype Cancellation = NotBegun | Out(taskId: Option<TaskId>, runId: Option<RunId>) | Done(result: CancelResult)

  /** `actual` is the run the task has in the store; `rejected` says that starting it was rejected. */
  datatype Target = Target(
    closure: Closure, outer: Outer, taskId: Option<TaskId>, runId: Option<RunId>, snapshot: Option<Snapshot>,
    cancellation: Cancellation, applied: bool, cancellationSafe: bool, timedOut: bool, unexpectedInteraction: bool,
    actual: Option<Run>, rejected: bool)

  datatype Event =
    // The task's run is admitted or changes.
    | StoreChanges(run: Run)
    // The closure's awaits.
    | TaskCreated(task: Option<TaskId>, stopping: bool, expired: bool)
    | RunStarted(started: Option<RunId>)
    | Polled(listed: Option<Snapshot>, stopping: bool)
    | PollExpired
    | ClosureApplies
    | EvidenceListed(snapshot: Snapshot)
    | EvidenceDone
    // The shared cancellation, after these listings; or it gives up without any.
    | CancellationDone(listings: seq<Snapshot>, result: CancelResult)
    | CancellationGivesUp
    // The target's own flow.
    | BoundaryReached(boundary: Boundary)
    | OuterApplies
    | ClosureWaitEnds
    | FinalListed(listed: Option<Snapshot>)

  // ----- The store -----

  /** A run stays the task's, and stays as it is once it is contained. */
  predicate Earlier(past: Option<Run>, now: Option<Run>) {
    past.Some? ==>
      && now.Some? && now.value.id == past.value.id && now.value.taskId == past.value.taskId
      && (Contained(past.value.status) ==> now.value.status == past.value.status)
  }

  /** The snapshot shows the task's run as it once was, at a time between `since` and `now`. */
  predicate ShowsPast(snapshot: Snapshot, taskId: Option<TaskId>, past: Option<Run>, since: Option<Run>,
                      now: Option<Run>) {
    && Earlier(since, past) && Earlier(past, now) && (past.Some? ==> past.value in snapshot.runs)
    && forall r :: r in snapshot.runs && (Some(r.taskId) == taskId || (now.Some? && r.id == now.value.id)) ==>
         past == Some(r)
  }

  predicate Shows(snapshot: Snapshot, taskId: Option<TaskId>, since: Option<Run>, now: Option<Run>) {
    || ShowsPast(snapshot, taskId, None, since, now)
    || exists r :: r in snapshot.runs && ShowsPast(snapshot, taskId, Some(r), since, now)
  }

  // ----- Steps -----

  predicate CanHappen(t: Target, e: Event) {
    match e
    case StoreChanges(run) =>
      if t.actual.Some? then Earlier(t.actual, Some(run)) else t.closure == StartingRun && t.taskId == Some(run.taskId)
    case TaskCreated(_, _, _) => t.closure == Creating
    case RunStarted(run) => t.closure == StartingRun && (run.Some? ==> t.actual.Some? && t.actual.value.id == run.value)
    case Polled(listed, _) => t.closure == Polling && (listed.Some? ==> Shows(listed.value, t.taskId, None, t.actual))
    case PollExpired => t.closure == Polling
    case ClosureApplies => t.closure == AwaitingCancellation && t.cancellation.Done?
    case EvidenceListed(snapshot) => t.closure == GatheringEvidence && Shows(snapshot, t.taskId, None, t.actual)
    case EvidenceDone => t.closure == GatheringEvidence
    case CancellationDone(listings, result) =>
      && t.cancellation.Out? && CanReturn(t.cancellation.taskId, t.cancellation.runId, listings, result)
      && forall i :: 0 <= i < |listings| ==> Shows(listings[i], t.taskId, None, t.actual)
    case CancellationGivesUp => t.cancellation.Out?
    case BoundaryReached(boundary) => t.outer == AtBoundary && (boundary == BoundarySettled ==> t.closure == Finished)
    case OuterApplies => t.outer.ApplyingCancellation? && t.cancellation.Done?
    case ClosureWaitEnds => t.outer.AwaitingClosure?
    case FinalListed(listed) =>
      t.outer.FinalListing? && (listed.Some? ==> Shows(listed.value, t.taskId, t.outer.since, t.actual))
  }

  function EnsureCancellation(t: Target): Target {
    if t.cancellation == NotBegun then t.(cancellation := Out(t.taskId, t.runId)) else t
  }

  function ApplyCancellation(t: Target): Target
    requires t.cancellation.Done?
  {
    var canceled := t.cancellation.result;
    t.(snapshot := if canceled.snapshot.Some? then canceled.snapshot else t.snapshot,
       runId := if canceled.runId.Some? then canceled.runId else t.runId,
       cancellationSafe := t.cancellationSafe && canceled.safe,
       applied := true)
  }

  /**
   * Only a finished closure, a cancellation that stayed safe, and a run seen contained, or none
   * known, let the next target start.
   */
  function Judge(t: Target): Target {
    var run := ObservedRun(t.snapshot, t.runId, t.taskId);
    var runContained := if run.Some? then Contained(run.value.status) else t.runId.None?;
    t.(outer := Returned(t.closure == Finished && t.cancellationSafe && runContained, run))
  }

  /** After the boundary: one more look at the tasks if none succeeded yet, then the verdict. */
  function Conclude(t: Target): Target {
    if t.snapshot.None? then t.(outer := FinalListing(t.actual)) else Judge(t)
  }

  function Poll(t: Target, snapshot: Snapshot, stopping: bool): Target
    requires t.runId.Some?
  {
    var seen := t.(snapshot := Some(snapshot));
    var run := FindRun(snapshot.runs, t.runId.value);
    if run.None? then seen.(closure := Finished)
    else if t.runId.value in snapshot.interactions then
      EnsureCancellation(seen.(unexpectedInteraction := true, closure := AwaitingCancellation))
    else if Terminal(run.value.status) then seen.(closure := GatheringEvidence)
    else if stopping then EnsureCancellation(seen.(closure := AwaitingCancellation))
    else seen
  }

  function ClosureStep(t: Target, e: Event): Target
    requires CanHappen(t, e) && ClosureEvent(e)
  {
    match e
    case TaskCreated(task, stopping, expired) =>
      if task.None? then t.(closure := Finished)
      else
        var created := t.(taskId := task);
        if stopping then created.(closure := Finished)
        else if expired then created.(closure := Finished, timedOut := true)
        else created.(closure := StartingRun)
    case RunStarted(run) =>
      if run.None? then t.(closure := Finished, rejected := true) else t.(runId := run, closure := Polling)
    case Polled(listed, stopping) =>
      if listed.None? || t.runId.None? then t.(closure := Finished) else Poll(t, listed.value, stopping)
    case PollExpired => EnsureCancellation(t.(timedOut := true, closure := AwaitingCancellation))
    case ClosureApplies =>
      var applied := ApplyCancellation(t);
      applied.(closure := if applied.cancellationSafe then GatheringEvidence else Finished)
    case EvidenceListed(snapshot) => t.(snapshot := Some(snapshot))
    case EvidenceDone => t.(closure := Finished)
  }

  predicate ClosureEvent(e: Event) {
    || e.TaskCreated? || e.RunStarted? || e.Polled? || e.PollExpired? || e.ClosureApplies? || e.EvidenceListed?
    || e.EvidenceDone?
  }

  function Step(t: Target, e: Event): Target
    requires CanHappen(t, e)
  {
    match e
    case StoreChanges(run) => t.(actual := Some(run))
    case CancellationDone(_, result) => t.(cancellation := Done(result))
    case CancellationGivesUp => t.(cancellation := Done(CancelResult(None, t.cancellation.runId, false)))
    case BoundaryReached(boundary) =>
      if boundary == BoundarySettled then Conclude(t)
      else
        EnsureCancellation(t.(timedOut := t.timedOut || boundary == BoundaryTimedOut,
                              outer := ApplyingCancellation(boundary)))
    case OuterApplies => ApplyCancellation(t).(outer := AwaitingClosure(t.outer.boundary))
    case ClosureWaitEnds => Conclude(t)
    case FinalListed(listed) => Judge(if listed.Some? then t.(snapshot := listed) else t)
    case _ => ClosureStep(t, e)
  }

  function Initial(): Target {
    Target(Creating, AtBoundary, None, None, None, NotBegun, false, true, false, false, None, false)
  }

  function After(t: Target, e: Event): Target {
    if CanHappen(t, e) then Step(t, e) else t
  }

  /** Runs the events that can happen where they come; the others are skipped. */
  function Exec(t: Target, events: seq<Event>): Target {
    if events == [] then t
    else After(Exec(t, events[..|events| - 1]), events[|events| - 1])
  }

  // ----- What every interleaving keeps -----

  /** Whatever run the task has is contained. */
  predicate RunContained(t: Target) {
    t.actual.Some? ==> Contained(t.actual.value.status)
  }

  /** Starting the run was rejected, and neither a cancellation nor a listing that succeeded looked for it. */
  predicate Unseen(t: Target) {
    t.rejected && t.cancellation == NotBegun && t.snapshot.None?
  }

  /** A result names a run only of a task; a safe one is about the task's run, and that run is contained. */
  predicate ResultFits(t: Target, result: CancelResult) {
    && (result.runId.Some? ==> t.taskId.Some?)
    && (result.safe ==>
      && result.snapshot.Some? && t.actual.Some? && Contained(t.actual.value.status)
      && result.runId == Some(t.actual.value.id) && Shows(result.snapshot.value, t.taskId, None, t.actual))
  }

  /** The task's run comes with starting it: none before, and none unknown after, unless starting it was rejected. */
  predicate RunsKnown(t: Target) {
    && (t.actual.Some? ==> t.taskId == Some(t.actual.value.taskId) && t.closure != Creating)
    && (t.actual.Some? && t.closure != StartingRun && t.runId.None? ==> t.rejected)
    && (t.closure == Creating ==> t.taskId.None?)
    && (t.closure == Polling || t.closure == GatheringEvidence ==> t.runId.Some?)
    && (t.rejected ==> t.closure == Finished)
  }

  /**
   * While the cancellation stays safe, a run known is the task's, a snapshot shows it as it
   * once was, and a final listing is asked for once the closure has finished.
   */
  predicate StillSafe(t: Target) {
    t.cancellationSafe ==>
      && (t.runId.Some? ==> t.actual.Some? && t.runId.value == t.actual.value.id)
      && (t.snapshot.Some? ==> t.runId.Some? && Shows(t.snapshot.value, t.taskId, None, t.actual))
      && (t.applied ==> t.snapshot.Some?)
      && (t.outer.FinalListing? ==>
            t.closure == Finished && t.snapshot.None? && Earlier(t.outer.since, t.actual) &&
            (t.actual.Some? ==> t.outer.since.Some?))
  }

  /** The one cancellation: who waits for it, what it was begun with, and what applying it left. */
  predicate Cancels(t: Target) {
    && (if t.applied then t.cancellation.Done? && t.cancellationSafe == t.cancellation.result.safe
        else t.cancellationSafe)
    && (t.cancellation != NotBegun && !t.applied ==> t.closure == AwaitingCancellation || t.outer.ApplyingCancellation?)
    && (t.closure == AwaitingCancellation || t.outer.ApplyingCancellation? ==> t.cancellation != NotBegun)
    && (t.outer.AwaitingClosure? ==> t.applied)
    && ((t.closure == StartingRun || t.rejected) && t.runId.Some? ==> t.applied)
    && (t.cancellation.Out? && t.cancellation.taskId.Some? ==> t.taskId == t.cancellation.taskId)
    && (t.cancellation.Out? && t.cancellation.runId.Some? ==>
          t.cancellation.taskId.Some? && t.runId == t.cancellation.runId)
    && (t.cancellation.Done? ==> ResultFits(t, t.cancellation.result))
  }

  predicate Inv(t: Target) {
    if t.outer.Returned? then t.outer.safe ==> Over(t)
    else RunsKnown(t) && StillSafe(t) && Cancels(t) && (t.runId.Some? ==> t.taskId.Some?)
  }

  /**
   * The target is over: its closure has finished, no cancellation is out or was unsafe, and
   * the run judged is the task's own, contained and with its status for good. Judged without
   * a run, the task has none, unless no one looked for it with success.
   */
  predicate Over(t: Target) {
    && t.closure == Finished && t.outer.Returned?
    && (t.cancellation == NotBegun || (t.cancellation.Done? && t.cancellation.result.safe))
    && (if t.outer.run.Some? then Contained(t.outer.run.value.status) && IsActual(t, t.outer.run.value)
        else t.actual.None? || Unseen(t))
  }

  predicate IsActual(t: Target, run: Run) {
    t.actual.Some? && t.actual.value.id == run.id && t.actual.value.status == run.status
  }

  // ----- Listings -----

  /** What a snapshot shows of a run stays a past of it. */
  lemma ShowsLater(snapshot: Snapshot, taskId: Option<TaskId>, since: Option<Run>, now: Option<Run>, later: Option<Run>)
    requires Shows(snapshot, taskId, since, now) && Earlier(now, later) && now.Some?
    ensures Shows(snapshot, taskId, since, later)
  {
    if ShowsPast(snapshot, taskId, None, since, now) {
      assert ShowsPast(snapshot, taskId, None, since, later);
    } else {
      var r :| r in snapshot.runs && ShowsPast(snapshot, taskId, Some(r), since, now);
      assert ShowsPast(snapshot, taskId, Some(r), since, later);
    }
  }

  /** A run of the task that a snapshot shows is the task's run, and contained for good where it is shown so. */
  lemma ShownIsActual(snapshot: Snapshot, taskId: Option<TaskId>, since: Option<Run>, now: Option<Run>, r: Run)
    requires Shows(snapshot, taskId, since, now) && r in snapshot.runs
    requires Some(r.taskId) == taskId || (now.Some? && r.id == now.value.id)
    ensures now.Some? && now.value.id == r.id && (Contained(r.status) ==> now.value.status == r.status)
  {
  }

  /** A snapshot asked for once the task had a run shows a run of the task. */
  lemma ShownSince(snapshot: Snapshot, taskId: Option<TaskId>, since: Option<Run>, now: Option<Run>)
    requires Shows(snapshot, taskId, since, now) && since.Some? && now.Some? && taskId == Some(now.value.taskId)
    ensures LatestTaskRun(snapshot.runs, now.value.taskId).Some?
  {
  }

  /** The run a cancellation follows is the task's. */
  lemma {:induction false} FollowsActual(taskId: Option<TaskId>, runId: Option<RunId>, listings: seq<Snapshot>,
                                         now: Option<Run>)
    requires forall i :: 0 <= i < |listings| ==> Shows(listings[i], taskId, None, now)
    requires runId.Some? ==> now.Some? && now.value.id == runId.value
    ensures var followed := Followed(taskId, runId, listings);
            followed.Some? ==> now.Some? && now.value.id == followed.value
    decreases |listings|
  {
    if listings != [] {
      var last := listings[|listings| - 1];
      FollowsActual(taskId, runId, listings[..|listings| - 1], now);
      var run := ObservedRun(Some(last), Followed(taskId, runId, listings[..|listings| - 1]), taskId);
      if run.Some? { ShownIsActual(last, taskId, None, now, run.value); }
    }
  }

  lemma {:induction false} FollowsNone(listings: seq<Snapshot>)
    ensures Followed(None, None, listings).None?
    decreases |listings|
  {
    if listings != [] { FollowsNone(listings[..|listings| - 1]); }
  }

  lemma ResultComesToFit(t: Target, listings: seq<Snapshot>, result: CancelResult)
    requires Inv(t) && !t.outer.Returned? && CanHappen(t, CancellationDone(listings, result))
    ensures ResultFits(t, result)
  {
    var out := t.cancellation;
    if out.taskId.None? {
      FollowsNone(listings);
    } else {
      FollowsActual(out.taskId, out.runId, listings, t.actual);
      if result.safe {
        var r :| r in result.snapshot.value.runs && r.id == result.runId.value && Contained(r.status);
        assert result.snapshot.value == listings[|listings| - 1];
        ShownIsActual(result.snapshot.value, t.taskId, None, t.actual, r);
      }
    }
  }

  // ----- Steps keep it -----

  lemma StoreChangesKeep(t: Target, run: Run)
    requires Inv(t) && !t.outer.Returned? && CanHappen(t, StoreChanges(run))
    ensures Inv(Step(t, StoreChanges(run)))
  {
    if t.actual.Some? {
      if t.snapshot.Some? && t.cancellationSafe { ShowsLater(t.snapshot.value, t.taskId, None, t.actual, Some(run)); }
      if t.cancellation.Done? && t.cancellation.result.safe {
        ShowsLater(t.cancellation.result.snapshot.value, t.taskId, None, t.actual, Some(run));
      }
    }
  }

  predicate Early(e: Event) {
    e.TaskCreated? || e.RunStarted? || e.EvidenceListed? || e.EvidenceDone?
  }

  lemma EarlyStepKeeps(t: Target, e: Event)
    requires Inv(t) && !t.outer.Returned? && Early(e) && CanHappen(t, e)
    ensures Inv(Step(t, e))
  {
  }

  lemma SnapshotKeeps(t: Target, snapshot: Snapshot)
    requires Inv(t) && !t.outer.Returned? && t.closure == Polling && Shows(snapshot, t.taskId, None, t.actual)
    ensures Inv(t.(snapshot := Some(snapshot)))
  {
  }

  /** A poll that ends early begins the cancellation, or joins it, and waits for it. */
  lemma AwaitsKeeps(t: Target, timedOut: bool, unexpected: bool)
    requires Inv(t) && !t.outer.Returned? && t.closure == Polling
    ensures Inv(EnsureCancellation(t.(closure := AwaitingCancellation, timedOut := timedOut,
                                      unexpectedInteraction := unexpected)))
  {
  }

  lemma PollEndsKeeps(t: Target, closure: Closure)
    requires Inv(t) && !t.outer.Returned? && t.closure == Polling &&
             (closure == Finished || closure == GatheringEvidence)
    ensures Inv(t.(closure := closure))
  {
  }

  lemma PolledKeeps(t: Target, snapshot: Snapshot, stopping: bool)
    requires Inv(t) && !t.outer.Returned? && CanHappen(t, Polled(Some(snapshot), stopping))
    ensures t.runId.Some? && Inv(Poll(t, snapshot, stopping))
  {
    var seen := t.(snapshot := Some(snapshot));
    SnapshotKeeps(t, snapshot);
    AwaitsKeeps(seen, seen.timedOut, true);
    AwaitsKeeps(seen, seen.timedOut, seen.unexpectedInteraction);
    PollEndsKeeps(seen, Finished);
    PollEndsKeeps(seen, GatheringEvidence);
  }

  lemma PollFailedKeeps(t: Target, stopping: bool)
    requires Inv(t) && !t.outer.Returned? && CanHappen(t, Polled(None, stopping))
    ensures Inv(Step(t, Polled(None, stopping)))
  {
  }

  lemma AppliedKeeps(t: Target, e: Event)
    requires Inv(t) && !t.outer.Returned? && (e.ClosureApplies? || e.OuterApplies?) && CanHappen(t, e)
    ensures Inv(Step(t, e))
  {
  }

  lemma CancellationKeeps(t: Target, e: Event)
    requires Inv(t) && !t.outer.Returned? && (e.CancellationDone? || e.CancellationGivesUp?) && CanHappen(t, e)
    ensures Inv(Step(t, e))
  {
    if e.CancellationDone? { ResultComesToFit(t, e.listings, e.result); }
  }

  /** A verdict of safe over a snapshot is about the task's run. */
  lemma JudgedWell(t: Target, since: Option<Run>)
    requires t.closure == Finished && t.cancellationSafe ==>
               && (t.runId.Some? ==> t.actual.Some? && t.runId.value == t.actual.value.id)
               && (t.snapshot.Some? ==> Shows(t.snapshot.value, t.taskId, since, t.actual))
               && (t.snapshot.Some? && t.runId.None? && t.actual.Some? ==>
                     since.Some? && t.taskId == Some(t.actual.value.taskId))
               && (t.snapshot.None? && t.runId.None? && t.actual.Some? ==> t.rejected && t.cancellation == NotBegun)
               && (t.cancellation == NotBegun || (t.cancellation.Done? && t.cancellation.result.safe))
    ensures Inv(Judge(t))
  {
    var run := ObservedRun(t.snapshot, t.runId, t.taskId);
    if Judge(t).outer.safe && t.snapshot.Some? && t.actual.Some? {
      if t.runId.None? { ShownSince(t.snapshot.value, t.taskId, since, t.actual); }
      ShownIsActual(t.snapshot.value, t.taskId, since, t.actual, run.value);
    }
  }

  lemma ConcludeKeeps(t: Target, e: Event)
    requires Inv(t) && !t.outer.Returned? && (e == BoundaryReached(BoundarySettled) || e.ClosureWaitEnds?) &&
             CanHappen(t, e)
    ensures Inv(Step(t, e))
  {
    if t.snapshot.Some? { JudgedWell(t, None); }
  }

  lemma FinalListingKeeps(t: Target, e: Event)
    requires Inv(t) && e.FinalListed? && CanHappen(t, e)
    ensures Inv(Step(t, e))
  {
    JudgedWell(if e.listed.Some? then t.(snapshot := e.listed) else t, t.outer.since);
  }

  lemma BoundaryKeeps(t: Target, e: Event)
    requires Inv(t) && e.BoundaryReached? && CanHappen(t, e)
    ensures Inv(Step(t, e))
  {
    if e.boundary == BoundarySettled { ConcludeKeeps(t, e); }
  }

  /** Nothing but the task's store changes under a target that is over, and it stays over. */
  lemma OverForGood(t: Target, e: Event)
    requires Over(t) && CanHappen(t, e)
    ensures e.StoreChanges? && Over(Step(t, e)) && Step(t, e) == t.(actual := Step(t, e).actual)
  {
  }

  lemma PollKeepsOuter(t: Target, snapshot: Snapshot, stopping: bool)
    requires t.runId.Some?
    ensures Poll(t, snapshot, stopping).outer == t.outer
  {
  }

  lemma ClosureKeepsOuter(t: Target, e: Event)
    requires ClosureEvent(e) && CanHappen(t, e)
    ensures ClosureStep(t, e).outer == t.outer
  {
    match e
    case Polled(Some(snapshot), stopping) =>
      if t.runId.Some? { PollKeepsOuter(t, snapshot, stopping); }
    case _ =>
  }

  lemma {:induction false} OverStays(t: Target, events: seq<Event>)
    requires Over(t) && forall i :: 0 <= i < |events| ==> !events[i].StoreChanges?
    ensures Exec(t, events) == t
    decreases |events|
  {
    if events != [] {
      OverStays(t, events[..|events| - 1]);
      if CanHappen(t, events[|events| - 1]) { OverForGood(t, events[|events| - 1]); }
    }
  }

  /** A verdict, safe or not, never changes; a closure still at work after it cannot make it safe. */
  lemma VerdictStands(t: Target, e: Event)
    requires t.outer.Returned? && CanHappen(t, e)
    ensures Step(t, e).outer == t.outer
  {
    if ClosureEvent(e) { ClosureKeepsOuter(t, e); }
  }

  lemma StepKeeps(t: Target, e: Event)
    requires Inv(t) && CanHappen(t, e)
    ensures Inv(Step(t, e))
  {
    if t.outer.Returned? {
      VerdictStands(t, e);
      if t.outer.safe { OverForGood(t, e); }
    } else {
      match e
      case StoreChanges(run) => StoreChangesKeep(t, run);
      case Polled(None, stopping) => PollFailedKeeps(t, stopping);
      case Polled(Some(snapshot), stopping) => PolledKeeps(t, snapshot, stopping);
      case PollExpired => AwaitsKeeps(t, true, t.unexpectedInteraction);
      case ClosureApplies => AppliedKeeps(t, e);
      case OuterApplies => AppliedKeeps(t, e);
      case CancellationDone(_, _) => CancellationKeeps(t, e);
      case CancellationGivesUp => CancellationKeeps(t, e);
      case BoundaryReached(_) => BoundaryKeeps(t, e);
      case ClosureWaitEnds => ConcludeKeeps(t, e);
      case FinalListed(_) => FinalListingKeeps(t, e);
      case _ => EarlyStepKeeps(t, e);
    }
  }

  lemma {:induction false} ExecKeeps(t: Target, events: seq<Event>)
    requires Inv(t)
    ensures Inv(Exec(t, events))
    decreases |events|
  {
    if events != [] {
      ExecKeeps(t, events[..|events| - 1]);
      var before := Exec(t, events[..|events| - 1]);
      if CanHappen(before, events[|events| - 1]) {
        StepKeeps(before, events[|events| - 1]);
      }
    }
  }

  // ----- What a verdict means -----

  lemma InitialInv()
    ensures Inv(Initial())
  {
  }

  /**
   * However the closure, the boundary and the cancellation interleave, a target returned as
   * safe is over, and its run is contained unless starting it was rejected and no one looked
   * for it with success.
   */
  lemma SafeMeansOver(events: seq<Event>)
    ensures var t := Exec(Initial(), events);
            t.outer.Returned? && t.outer.safe ==>
              Over(t) &&
              (RunContained(t) || (t.rejected && t.cancellation == NotBegun && t.snapshot.None? && t.outer.run.None?))
  {
    InitialInv();
    ExecKeeps(Initial(), events);
    SafeIsOver(Exec(Initial(), events));
  }

  lemma SafeIsOver(t: Target)
    requires Inv(t)
    ensures t.outer.Returned? && t.outer.safe ==>
              Over(t) &&
              (RunContained(t) || (t.rejected && t.cancellation == NotBegun && t.snapshot.None? && t.outer.run.None?))
  {
  }

  /**
   * A step returns a target as safe while its run is at work if and only if it is the failure
   * of the final listing, after starting the run was rejected and with no cancellation begun.
   */
  lemma ReleasedAtWorkIff(t: Target, e: Event)
    requires Inv(t) && !t.outer.Returned? && CanHappen(t, e)
    ensures Step(t, e).outer.Returned? && Step(t, e).outer.safe && !RunContained(Step(t, e)) <==>
            e == FinalListed(None) && t.rejected && t.cancellation == NotBegun && !RunContained(t)
  {
    StepKeeps(t, e);
  }

  /** The events before such a step: the run is admitted, and starting it is rejected. */
  function Rejected(run: Run): seq<Event> {
    [TaskCreated(Some(run.taskId), false, false), StoreChanges(run), RunStarted(None), BoundaryReached(BoundarySettled)]
  }

  /** Such a step is reachable, whatever run was admitted. */
  lemma ReleasedAtWork(run: Run)
    ensures var t := Exec(Initial(), Rejected(run));
            && t.outer.FinalListing? && t.rejected && t.cancellation == NotBegun && t.actual == Some(run)
            && CanHappen(t, FinalListed(None)) && Step(t, FinalListed(None)).outer == Returned(true, None)
  {
    var events := Rejected(run);
    forall i | 0 <= i < 4 ensures Exec(Initial(), events[..i + 1]) == After(Exec(Initial(), events[..i]), events[i]) {
      ExecAppends(Initial(), events[..i], events[i]);
      assert events[..i + 1] == events[..i] + [events[i]];
    }
    assert events[..0] == [] && events[..4] == events;
    RejectedRun(run);
  }

  lemma RejectedRun(run: Run)
    ensures var t := Initial().(closure := Finished, taskId := Some(run.taskId), actual := Some(run), rejected := true,
                                outer := FinalListing(Some(run)));
            var events := Rejected(run);
            After(After(After(After(Initial(), events[0]), events[1]), events[2]), events[3]) == t
  {
  }

  // ----- Deadlines -----

  /** The events the deadlines bring about when nothing else happens. */
  function Deadlines(): seq<Event> {
    [BoundaryReached(BoundaryTimedOut), CancellationGivesUp, OuterApplies, ClosureWaitEnds, FinalListed(None)]
  }

  lemma ExecAppends(t: Target, first: seq<Event>, e: Event)
    ensures Exec(t, first + [e]) == After(Exec(t, first), e)
  {
    assert (first + [e])[..|first|] == first;
  }

  /** Each deadline ends the wait it bounds. */
  lemma DeadlinesPass(t: Target)
    requires Inv(t)
    ensures var events := Deadlines();
            After(After(After(After(After(t, events[0]), events[1]), events[2]), events[3]), events[4]).outer.Returned?
  {
    BoundaryPasses(t);
    WaitPasses(After(After(t, BoundaryReached(BoundaryTimedOut)), CancellationGivesUp));
  }

  lemma BoundaryPasses(t: Target)
    requires Inv(t)
    ensures var t2 := After(After(t, BoundaryReached(BoundaryTimedOut)), CancellationGivesUp);
            t2.outer != AtBoundary && (t2.outer.ApplyingCancellation? ==> t2.cancellation.Done?)
  {
    var t1 := After(t, BoundaryReached(BoundaryTimedOut));
    assert t1.outer != AtBoundary && (t1.outer.ApplyingCancellation? ==> t1.cancellation != NotBegun);
  }

  lemma WaitPasses(t: Target)
    requires t.outer != AtBoundary && (t.outer.ApplyingCancellation? ==> t.cancellation.Done?)
    ensures After(After(After(t, OuterApplies), ClosureWaitEnds), FinalListed(None)).outer.Returned?
  {
    var concluded := After(After(t, OuterApplies), ClosureWaitEnds);
    assert concluded.outer.FinalListing? || concluded.outer.Returned?;
  }

  /** A target always returns once its deadlines pass, however stuck its provider is. */
  lemma AlwaysReturns(t: Target)
    requires Inv(t)
    ensures Exec(t, Deadlines()).outer.Returned?
  {
    var events := Deadlines();
    DeadlinesPass(t);
    forall i | 0 <= i < 5 ensures Exec(t, events[..i + 1]) == After(Exec(t, events[..i]), events[i]) {
      ExecAppends(t, events[..i], events[i]);
      assert events[..i + 1] == events[..i] + [events[i]];
    }
    assert events[..0] == [] && events[..5] == events;
  }
}
