/**
 * Provider runs as the smoke pass observes them, and the best-effort cancellation of one:
 * at most one cancel request, and a verdict of safe only over a run seen contained.
 */
module SmokeRuns {
  import opened Wrappers

  type TaskId = string
  type RunId = string

  datatype RunStatus =
    | Queued | Starting | Running | AwaitingApproval | AwaitingUserInput | Interrupting
    | Completed | Failed | Interrupted | RecoveryRequired | Lost

  predicate Contained(status: RunStatus) {
    status in {Completed, Failed, Interrupted}
  }

  predicate Terminal(status: RunStatus) {
    Contained(status) || status in {RecoveryRequired, Lost}
  }

  datatype Run = Run(id: RunId, taskId: TaskId, status: RunStatus, startedAt: int)

  /** The task store at one moment; `interactions` holds the runs with an open interaction request. */
  datatype Snapshot = Snapshot(runs: seq<Run>, interactions: set<RunId>)

  function FindRun(runs: seq<Run>, id: RunId): (run: Option<Run>)
    ensures run.Some? ==> run.value in runs && run.value.id == id
    ensures run.None? ==> forall r :: r in runs ==> r.id != id
  {
    if runs == [] then None else if runs[0].id == id then Some(runs[0]) else FindRun(runs[1..], id)
  }

  /** The task's run that started last; of runs that started together, the first listed. */
  function LatestTaskRun(runs: seq<Run>, task: TaskId): (run: Option<Run>)
    ensures run.Some? ==> run.value in runs && run.value.taskId == task
    ensures run.Some? ==> forall r :: r in runs && r.taskId == task ==> r.startedAt <= run.value.startedAt
    ensures run.None? ==> forall r :: r in runs ==> r.taskId != task
  {
    if runs == [] then None
    else
      var later := LatestTaskRun(runs[1..], task);
      if runs[0].taskId == task && (later.None? || later.value.startedAt <= runs[0].startedAt) then Some(runs[0])
      else later
  }

  /** The run a cancellation or a verdict is about. */
  function ObservedRun(snapshot: Option<Snapshot>, runId: Option<RunId>, taskId: Option<TaskId>): (run: Option<Run>)
    ensures run.Some? ==> snapshot.Some? && run.value in snapshot.value.runs
    ensures run.Some? && runId.Some? ==> run.value.id == runId.value
    ensures run.Some? && runId.None? ==> taskId == Some(run.value.taskId)
  {
    if snapshot.None? then None
    else if runId.Some? then FindRun(snapshot.value.runs, runId.value)
    else if taskId.Some? then LatestTaskRun(snapshot.value.runs, taskId.value)
    else None
  }

  predicate StillRunning(run: Option<Run>) {
    run.Some? && !Terminal(run.value.status)
  }

  /** A run is still running in exactly the states that are not an end, contained or not. */
  lemma StillRunningIff(run: Run)
    ensures StillRunning(Some(run)) <==>
              run.status in {Queued, Starting, Running, AwaitingApproval, AwaitingUserInput, Interrupting}
    ensures !StillRunning(Some(run)) && !Contained(run.status) <==> run.status == RecoveryRequired || run.status == Lost
  {
    match run.status
    case RecoveryRequired =>
    case Lost =>
    case _ =>
  }

  /** Of the task's runs, each listed before its latest started earlier. */
  lemma {:induction false} LatestIsFirst(runs: seq<Run>, task: TaskId) returns (i: nat)
    requires exists r :: r in runs && r.taskId == task
    ensures LatestTaskRun(runs, task).Some? && i < |runs| && runs[i] == LatestTaskRun(runs, task).value
    ensures forall j :: 0 <= j < i && runs[j].taskId == task ==> runs[j].startedAt < runs[i].startedAt
    decreases |runs|
  {
    i := 0;
    if LatestTaskRun(runs, task) != Some(runs[0]) {
      var later := LatestTaskRun(runs[1..], task);
      var k := LatestIsFirst(runs[1..], task);
      i := k + 1;
      assert later == LatestTaskRun(runs, task) && runs[i] == later.value;
      forall j | 0 <= j < i && runs[j].taskId == task ensures runs[j].startedAt < runs[i].startedAt {
        assert j > 0 ==> runs[j] == runs[1..][j - 1];
      }
    }
  }

  datatype CancelResult = CancelResult(snapshot: Option<Snapshot>, runId: Option<RunId>, safe: bool)

  /**
   * The run a cancellation is about after these listings: the known one, else the task's latest
   * when it was first seen.
   */
  function Followed(taskId: Option<TaskId>, knownRunId: Option<RunId>, listings: seq<Snapshot>): (runId: Option<RunId>)
    ensures knownRunId.Some? ==> runId == knownRunId
  {
    if listings == [] then knownRunId
    else
      var before := Followed(taskId, knownRunId, listings[..|listings| - 1]);
      var run := ObservedRun(Some(listings[|listings| - 1]), before, taskId);
      if run.Some? then Some(run.value.id) else before
  }

  function Last(listings: seq<Snapshot>): Option<Snapshot> {
    if listings == [] then None else Some(listings[|listings| - 1])
  }

  /** Looking for the run in the last listing gives the one followed from then on. */
  predicate LooksRight(taskId: Option<TaskId>, knownRunId: Option<RunId>, listings: seq<Snapshot>,
                       runId: Option<RunId>) {
    var run := ObservedRun(Last(listings), runId, taskId);
    Followed(taskId, knownRunId, listings) == if run.Some? then Some(run.value.id) else runId
  }

  lemma FollowedMore(taskId: Option<TaskId>, knownRunId: Option<RunId>, listings: seq<Snapshot>, snapshot: Snapshot)
    ensures LooksRight(taskId, knownRunId, listings + [snapshot], Followed(taskId, knownRunId, listings))
  {
    assert (listings + [snapshot])[..|listings|] == listings;
  }

  /** Looking again without a new listing follows the same run. */
  lemma FollowedStays(taskId: Option<TaskId>, knownRunId: Option<RunId>, listings: seq<Snapshot>)
    ensures LooksRight(taskId, knownRunId, listings, Followed(taskId, knownRunId, listings))
  {
  }

  /** Without a known run, the one followed is the task's latest in the first listing that has a run of the task. */
  lemma {:induction false} FollowedFirst(task: TaskId, listings: seq<Snapshot>) returns (i: nat)
    ensures var followed := Followed(Some(task), None, listings);
            if followed.None? then forall k :: 0 <= k < |listings| ==> LatestTaskRun(listings[k].runs, task).None?
            else
              && i < |listings| && LatestTaskRun(listings[i].runs, task).Some?
              && followed == Some(LatestTaskRun(listings[i].runs, task).value.id)
              && forall k :: 0 <= k < i ==> LatestTaskRun(listings[k].runs, task).None?
    decreases |listings|
  {
    i := 0;
    if listings != [] {
      i := FollowedFirst(task, listings[..|listings| - 1]);
      if Followed(Some(task), None, listings[..|listings| - 1]).None? { i := |listings| - 1; }
    }
  }

  /** The snapshot shows the run, contained. */
  predicate ShowsContained(snapshot: Option<Snapshot>, runId: Option<RunId>) {
    snapshot.Some? && runId.Some? &&
    exists r :: r in snapshot.value.runs && r.id == runId.value && Contained(r.status)
  }

  /** What a cancellation that has listed these snapshots can return. */
  predicate CanReturn(taskId: Option<TaskId>, knownRunId: Option<RunId>, listings: seq<Snapshot>,
                      result: CancelResult) {
    && result.snapshot == Last(listings) && result.runId == Followed(taskId, knownRunId, listings)
    && (result.safe ==> ShowsContained(result.snapshot, result.runId))
  }

  datatype Listing = TimedOut | ListFailed | Listed(snapshot: Snapshot)

  /**
   * One turn of the cancellation's loop as its surroundings decide it: what listing the
   * tasks gives and how long it takes, how much longer than asked the pause lasts, and
   * whether the cancel request, once sent, has settled by then.
   */
  datatype Turn = Turn(listing: Listing, listingTook: nat, settledDuringListing: bool, pauseOverran: nat,
                       settledDuringPause: bool)

  /** What a cancellation is asked for, and the clock when it starts. */
  datatype Input = Input(taskId: Option<TaskId>, runId: Option<RunId>, startedAt: nat, deadline: nat, pollInterval: nat)

  function AtLeastOne(n: nat): nat { if n == 0 then 1 else n }

  function Min(a: nat, b: nat): nat { if a < b then a else b }

  // ----- What a cancellation has come to after some turns -----

  /** What its first turns have listed, in order. */
  function ListedBy(turns: nat -> Turn, count: nat): seq<Snapshot> {
    if count == 0 then []
    else
      var listing := turns(count - 1).listing;
      ListedBy(turns, count - 1) + if listing.Listed? then [listing.snapshot] else []
  }

  /** The run found in the last of these listings. */
  function Found(input: Input, listings: seq<Snapshot>): Option<Run> {
    if listings == [] then None
    else
      var last := |listings| - 1;
      ObservedRun(Some(listings[last]), Followed(input.taskId, input.runId, listings[..last]), input.taskId)
  }

  /** The run asked to stop: the first one found still running. */
  function AskedFor(input: Input, listings: seq<Snapshot>): seq<RunId> {
    if listings == [] then []
    else
      var before, run := AskedFor(input, listings[..|listings| - 1]), Found(input, listings);
      if before == [] && StillRunning(run) then [run.value.id] else before
  }

  /** The run that the listing at `i` found. */
  function FoundAt(input: Input, listings: seq<Snapshot>, i: nat): Option<Run>
    requires i < |listings|
  {
    Found(input, listings[..i + 1])
  }

  /** None of this many listings found a run still running. */
  ghost predicate NoneRunning(input: Input, listings: seq<Snapshot>, count: nat) {
    forall i: nat :: i < count <= |listings| ==> !StillRunning(FoundAt(input, listings, i))
  }

  lemma FoundBefore(input: Input, listings: seq<Snapshot>, i: nat)
    requires i < |listings| - 1
    ensures FoundAt(input, listings[..|listings| - 1], i) == FoundAt(input, listings, i)
  {
    assert listings[..|listings| - 1][..i + 1] == listings[..i + 1];
  }

  /** One request is made, for the run that the first listing to find one running found; none where none does. */
  lemma {:induction false} AskedForFirst(input: Input, listings: seq<Snapshot>) returns (i: nat)
    ensures var asked := AskedFor(input, listings);
            if asked == [] then NoneRunning(input, listings, |listings|)
            else
              && i < |listings| && NoneRunning(input, listings, i) && StillRunning(FoundAt(input, listings, i))
              && asked == [FoundAt(input, listings, i).value.id]
    decreases |listings|
  {
    i := 0;
    if listings != [] {
      var init := listings[..|listings| - 1];
      i := AskedForFirst(input, init);
      forall k: nat | k < |init| ensures FoundAt(input, init, k) == FoundAt(input, listings, k) {
        FoundBefore(input, listings, k);
      }
      assert listings[..|init| + 1] == listings;
      if AskedFor(input, init) == [] { i := |init|; }
    }
  }

  /** The clock once this many turns have passed, pauses and all. */
  function Clock(input: Input, turns: nat -> Turn, count: nat): nat {
    if count == 0 then input.startedAt
    else
      var turn := turns(count - 1);
      Paused(input, Clock(input, turns, count - 1) + turn.listingTook, turn.pauseOverran)
  }

  /** The clock after a pause, which there is only before the deadline. */
  function Paused(input: Input, now: nat, overran: nat): nat {
    if input.deadline <= now then now else now + AtLeastOne(Min(input.pollInterval, input.deadline - now)) + overran
  }

  predicate Asked(input: Input, turns: nat -> Turn, count: nat) {
    AskedFor(input, ListedBy(turns, count)) != []
  }

  /** A request made before the turn has settled while it listed the tasks. */
  predicate SettlesListing(input: Input, turns: nat -> Turn, i: nat) {
    Asked(input, turns, i) && turns(i).settledDuringListing
  }

  /** A request made by the turn's end has settled while it paused. */
  predicate SettlesPause(input: Input, turns: nat -> Turn, i: nat) {
    Asked(input, turns, i + 1) && turns(i).settledDuringPause
  }

  /** By the end of this many turns the request has settled. */
  ghost predicate SettledBy(input: Input, turns: nat -> Turn, count: nat) {
    exists i: nat :: i < count && (SettlesListing(input, turns, i) || SettlesPause(input, turns, i))
  }

  /** The run found leaves something to do: it is still running, or contained with its request still out. */
  predicate Goes(run: Option<Run>, asked: bool) {
    run.Some? && Terminal(run.value.status) ==> Contained(run.value.status) && asked
  }

  predicate TurnWentOn(input: Input, turns: nat -> Turn, k: nat)
    requires 0 < k
  {
    !turns(k - 1).listing.TimedOut? && Goes(Found(input, ListedBy(turns, k)), Asked(input, turns, k))
  }

  /** None of this many turns ended the cancellation: none timed out, and no run found left nothing to do. */
  ghost predicate WentOn(input: Input, turns: nat -> Turn, count: nat) {
    forall k: nat :: 0 < k <= count ==> TurnWentOn(input, turns, k)
  }

  /** Each of this many turns began before the deadline. */
  ghost predicate Early(input: Input, turns: nat -> Turn, count: nat) {
    forall k: nat :: k < count ==> Clock(input, turns, k) < input.deadline
  }

  /**
   * The turns taken began before the deadline, and none before the last gave the cancellation a reason to
   * end; the one request is for the run first found still running, and it has settled if it did while
   * a turn listed the tasks or paused (only the last turn may not pause).
   */
  ghost predicate TurnsTaken(input: Input, turns: nat -> Turn, count: nat, sent: seq<RunId>, settled: bool) {
    && Early(input, turns, count) && (input.startedAt < input.deadline ==> 0 < count)
    && (0 < count ==> WentOn(input, turns, count - 1)) && sent == AskedFor(input, ListedBy(turns, count))
    && (settled ==> SettledBy(input, turns, count))
    && (!settled && 0 < count ==> !SettledBy(input, turns, count - 1) && !SettlesListing(input, turns, count - 1))
  }

  /** It ends for one of four reasons: its deadline, a listing that timed out, or a run at its end, contained or not. */
  predicate Ends(input: Input, turns: nat -> Turn, count: nat, run: Option<Run>, free: bool) {
    || input.deadline <= Clock(input, turns, count) || (0 < count && turns(count - 1).listing.TimedOut?)
    || (run.Some? && Terminal(run.value.status) && (Contained(run.value.status) ==> free))
  }

  /** Safe exactly when the run judged was seen contained and no request of its own is still out. */
  predicate JudgedSafe(result: CancelResult, run: Option<Run>, free: bool) {
    result.safe <==> run.Some? && Contained(run.value.status) && free
  }

  /** The run judged is the one the result names, in the last snapshot; without one, none is there to find. */
  predicate Judges(input: Input, result: CancelResult, run: Option<Run>) {
    if run.Some? then
      result.snapshot.Some? && run.value in result.snapshot.value.runs && result.runId == Some(run.value.id)
    else ObservedRun(result.snapshot, result.runId, input.taskId).None?
  }

  // ----- One more turn -----

  lemma TurnSettles(input: Input, turns: nat -> Turn, count: nat)
    ensures SettledBy(input, turns, count + 1) <==>
              || SettledBy(input, turns, count) || SettlesListing(input, turns, count)
              || SettlesPause(input, turns, count)
  {
  }

  lemma WentOnMore(input: Input, turns: nat -> Turn, count: nat)
    requires WentOn(input, turns, count) && TurnWentOn(input, turns, count + 1)
    ensures WentOn(input, turns, count + 1)
  {
  }

  lemma EarlyMore(input: Input, turns: nat -> Turn, count: nat)
    requires Early(input, turns, count) && Clock(input, turns, count) < input.deadline
    ensures Early(input, turns, count + 1)
  {
  }

  /** The run a turn looks at is the one its listing finds, or without a listing the one last found. */
  predicate Seen(input: Input, turns: nat -> Turn, count: nat, run: Option<Run>) {
    run == if turns(count).listing.Listed? then Found(input, ListedBy(turns, count + 1))
           else
             ObservedRun(Last(ListedBy(turns, count)),
                         Followed(input.taskId, input.runId, ListedBy(turns, count)), input.taskId)
  }

  lemma SentMore(input: Input, turns: nat -> Turn, count: nat, run: Option<Run>)
    requires Seen(input, turns, count, run)
    requires !Asked(input, turns, count) ==> Found(input, ListedBy(turns, count)).None?
    ensures var sent := AskedFor(input, ListedBy(turns, count));
            && AskedFor(input, ListedBy(turns, count + 1)) ==
               (if sent == [] && StillRunning(run) then [run.value.id] else sent)
            && (sent == [] ==> Found(input, ListedBy(turns, count + 1)) == run)
    ensures !turns(count).listing.Listed? ==>
              Found(input, ListedBy(turns, count + 1)) == Found(input, ListedBy(turns, count))
  {
    var listings := ListedBy(turns, count);
    if turns(count).listing.Listed? {
      assert (listings + [turns(count).listing.snapshot])[..|listings|] == listings;
    } else {
      assert ListedBy(turns, count + 1) == listings;
      FollowedStays(input.taskId, input.runId, listings);
    }
  }

  /** Where a cancellation stands between two turns. */
  datatype Progress = Progress(snapshot: Option<Snapshot>, runId: Option<RunId>, sent: seq<RunId>, settled: bool,
                               now: nat)

  /** What it knows of the listings so far, and of its request. */
  predicate Follows(input: Input, turns: nat -> Turn, count: nat, p: Progress) {
    var listings := ListedBy(turns, count);
    && p.snapshot == Last(listings) && p.runId == Followed(input.taskId, input.runId, listings)
    && p.sent == AskedFor(input, listings) && (p.sent == [] ==> Found(input, listings).None?)
    && Goes(Found(input, listings), p.sent != [])
  }

  ghost predicate Reached(input: Input, turns: nat -> Turn, count: nat, p: Progress) {
    && Follows(input, turns, count, p) && p.now == Clock(input, turns, count)
    && (p.settled <==> SettledBy(input, turns, count)) && WentOn(input, turns, count) && Early(input, turns, count)
  }

  /** Once a turn has listed the tasks, its request may have settled. */
  function AfterListing(p: Progress, turn: Turn): Progress {
    p.(now := p.now + turn.listingTook, settled := p.settled || (p.sent != [] && turn.settledDuringListing))
  }

  /** However the turn ends, it was taken after turns that went on. */
  lemma TurnTaken(input: Input, turns: nat -> Turn, count: nat, p: Progress, sent: seq<RunId>)
    requires Reached(input, turns, count, p) && p.now < input.deadline
    requires sent == AskedFor(input, ListedBy(turns, count + 1))
    ensures TurnsTaken(input, turns, count + 1, sent, AfterListing(p, turns(count)).settled)
  {
    TurnSettles(input, turns, count);
    EarlyMore(input, turns, count);
  }

  /** A turn that gives no reason to end leads on to the next. */
  lemma TurnGoesOn(input: Input, turns: nat -> Turn, count: nat, p: Progress, next: Progress)
    requires Reached(input, turns, count, p) && p.now < input.deadline && !turns(count).listing.TimedOut?
    requires Follows(input, turns, count + 1, next)
    requires var listed := AfterListing(p, turns(count));
             && (next.settled <==> listed.settled || (next.sent != [] && turns(count).settledDuringPause))
             && next.now == Paused(input, listed.now, turns(count).pauseOverran)
    ensures Reached(input, turns, count + 1, next)
  {
    TurnSettles(input, turns, count);
    EarlyMore(input, turns, count);
    WentOnMore(input, turns, count);
  }

  /** A run seen in the last listing may be returned, as safe only where it is contained. */
  lemma MayReturn(taskId: Option<TaskId>, knownRunId: Option<RunId>, listings: seq<Snapshot>, result: CancelResult,
                  run: Option<Run>)
    requires result.snapshot == Last(listings) && result.runId == Followed(taskId, knownRunId, listings)
    requires run.Some? ==>
               result.snapshot.Some? && run.value in result.snapshot.value.runs && result.runId == Some(run.value.id)
    requires result.safe ==> run.Some? && Contained(run.value.status)
    ensures CanReturn(taskId, knownRunId, listings, result)
  {
  }

  // ----- The loop -----

  /** Looks for the run in the last listing there is, and follows it from now on. */
  method Look(input: Input, snapshot: Option<Snapshot>, runId0: Option<RunId>, ghost listings: seq<Snapshot>)
    returns (runId: Option<RunId>, run: Option<Run>)
    requires snapshot == Last(listings) && LooksRight(input.taskId, input.runId, listings, runId0)
    ensures run == ObservedRun(snapshot, runId0, input.taskId)
    ensures runId == Followed(input.taskId, input.runId, listings)
    ensures run.Some? ==> snapshot.Some? && run.value in snapshot.value.runs && runId == Some(run.value.id)
  {
    run := ObservedRun(snapshot, runId0, input.taskId);
    runId := if run.Some? then Some(run.value.id) else runId0;
  }

  /** Lists the tasks and looks for the run in the last listing there is. */
  method Observe(input: Input, turns: nat -> Turn, count: nat, snapshot0: Option<Snapshot>, runId0: Option<RunId>)
    returns (snapshot: Option<Snapshot>, runId: Option<RunId>, run: Option<Run>)
    requires var listings := ListedBy(turns, count);
             snapshot0 == Last(listings) && runId0 == Followed(input.taskId, input.runId, listings)
    ensures var listings := ListedBy(turns, count + 1);
            snapshot == Last(listings) && runId == Followed(input.taskId, input.runId, listings)
    ensures Seen(input, turns, count, run)
    ensures run.Some? ==> snapshot.Some? && run.value in snapshot.value.runs && runId == Some(run.value.id)
  {
    ghost var listings := ListedBy(turns, count);
    snapshot := snapshot0;
    var listing := turns(count).listing;
    if listing.Listed? {
      FollowedMore(input.taskId, input.runId, listings, listing.snapshot);
      snapshot := Some(listing.snapshot);
      listings := listings + [listing.snapshot];
      assert listings[..|listings| - 1] == ListedBy(turns, count);
    } else {
      FollowedStays(input.taskId, input.runId, listings);
      assert ListedBy(turns, count + 1) == listings;
    }
    runId, run := Look(input, snapshot, runId0, listings);
  }

  /** The verdict on the run as it is found last; `free` where no request is still out. */
  method LastLook(input: Input, snapshot: Option<Snapshot>, runId0: Option<RunId>, free: bool,
                  ghost listings: seq<Snapshot>)
    returns (result: CancelResult, run: Option<Run>)
    requires snapshot == Last(listings) && runId0 == Followed(input.taskId, input.runId, listings)
    ensures CanReturn(input.taskId, input.runId, listings, result) && Judges(input, result, run)
    ensures JudgedSafe(result, run, free)
  {
    FollowedStays(input.taskId, input.runId, listings);
    var runId;
    runId, run := Look(input, snapshot, runId0, listings);
    result := CancelResult(snapshot, runId, run.Some? && Contained(run.value.status) && free);
    MayReturn(input.taskId, input.runId, listings, result, run);
  }

  /** A turn whose listing timed out ends the cancellation. */
  method TimesOut(input: Input, turns: nat -> Turn, count: nat, p: Progress)
    returns (result: CancelResult, run: Option<Run>)
    requires Reached(input, turns, count, p) && p.now < input.deadline && turns(count).listing.TimedOut?
    ensures var listed := AfterListing(p, turns(count));
            && TurnsTaken(input, turns, count + 1, listed.sent, listed.settled)
            && JudgedSafe(result, run, listed.sent == [] || listed.settled)
    ensures Judges(input, result, run) && CanReturn(input.taskId, input.runId, ListedBy(turns, count + 1), result)
  {
    assert ListedBy(turns, count + 1) == ListedBy(turns, count);
    TurnTaken(input, turns, count, p, p.sent);
    var listed := AfterListing(p, turns(count));
    result, run := LastLook(input, p.snapshot, p.runId, p.sent == [] || listed.settled, ListedBy(turns, count));
  }

  /** A turn lists the tasks, and asks the run it finds to stop if it is the first still running. */
  method ListAndAsk(input: Input, turns: nat -> Turn, count: nat, p: Progress)
    returns (next: Progress, run: Option<Run>)
    requires Reached(input, turns, count, p) && p.now < input.deadline
    ensures next == AfterListing(p, turns(count)).(snapshot := next.snapshot, runId := next.runId, sent := next.sent)
    ensures var listings := ListedBy(turns, count + 1);
            && next.snapshot == Last(listings) && next.runId == Followed(input.taskId, input.runId, listings)
            && next.sent == AskedFor(input, listings)
    ensures run.Some? ==>
              next.snapshot.Some? && run.value in next.snapshot.value.runs && next.runId == Some(run.value.id)
    ensures TurnsTaken(input, turns, count + 1, next.sent, next.settled)
    ensures Goes(run, next.sent != []) ==> Follows(input, turns, count + 1, next)
  {
    var snapshot, runId;
    snapshot, runId, run := Observe(input, turns, count, p.snapshot, p.runId);
    SentMore(input, turns, count, run);
    next := AfterListing(p, turns(count)).(snapshot := snapshot, runId := runId,
                         sent := if StillRunning(run) && p.sent == [] then [run.value.id] else p.sent);
    TurnTaken(input, turns, count, p, next.sent);
  }

  /** One turn of the cancellation's loop. */
  method OneTurn(input: Input, turns: nat -> Turn, count: nat, p: Progress)
    returns (next: Progress, ended: bool, result: CancelResult, run: Option<Run>)
    requires Reached(input, turns, count, p) && p.now < input.deadline
    ensures !ended ==> Reached(input, turns, count + 1, next) && p.now < next.now
    ensures ended ==>
              && TurnsTaken(input, turns, count + 1, next.sent, next.settled) && Judges(input, result, run)
              && JudgedSafe(result, run, next.sent == [] || next.settled)
              && CanReturn(input.taskId, input.runId, ListedBy(turns, count + 1), result)
              && Ends(input, turns, count + 1, run, next.sent == [] || next.settled)
  {
    var turn := turns(count);
    if turn.listing.TimedOut? {
      result, run := TimesOut(input, turns, count, p);
      return AfterListing(p, turn), true, result, run;
    }
    next, run := ListAndAsk(input, turns, count, p);
    if run.Some? && Terminal(run.value.status) &&
       (Contained(run.value.status) ==> next.sent == [] || next.settled) {
      result := CancelResult(next.snapshot, next.runId, Contained(run.value.status));
      MayReturn(input.taskId, input.runId, ListedBy(turns, count + 1), result, run);
      return next, true, result, run;
    }
    if input.deadline <= next.now {
      result, run := LastLook(input, next.snapshot, next.runId, next.sent == [] || next.settled,
                              ListedBy(turns, count + 1));
      return next, true, result, run;
    }
    next := next.(now := next.now + AtLeastOne(Min(input.pollInterval, input.deadline - next.now)) + turn.pauseOverran,
                  settled := next.settled || (next.sent != [] && turn.settledDuringPause));
    TurnGoesOn(input, turns, count, p, next);
    return next, false, CancelResult(None, None, false), run;
  }

  /**
   * Cancels a task's run by its deadline, if it can. `run` is the run the verdict is about,
   * `sent` the cancel requests sent, `settled` whether the request has settled, and
   * `count` the turns taken.
   */
  method CancelTaskRunBestEffort(input: Input, turns: nat -> Turn)
    returns (result: CancelResult, run: Option<Run>, sent: seq<RunId>, settled: bool, count: nat)
    ensures TurnsTaken(input, turns, count, sent, settled)
    ensures Ends(input, turns, count, run, sent == [] || settled)
    ensures JudgedSafe(result, run, sent == [] || settled) && Judges(input, result, run)
    ensures CanReturn(input.taskId, input.runId, ListedBy(turns, count), result)
  {
    var p := Progress(None, input.runId, [], false, input.startedAt);
    count := 0;
    while p.now < input.deadline
      invariant Reached(input, turns, count, p)
      decreases input.deadline - p.now
    {
      var next, ended;
      next, ended, result, run := OneTurn(input, turns, count, p);
      p, count := next, count + 1;
      if ended { return result, run, p.sent, p.settled, count; }
    }
    sent, settled := p.sent, p.settled;
    if 0 < count { TurnSettles(input, turns, count - 1); }
    result, run := LastLook(input, p.snapshot, p.runId, sent == [] || settled, ListedBy(turns, count));
  }

  // ----- What it asks for -----

  /** At most one request is sent, and only for a run that a turn taken has listed, still running. */
  lemma AskedIsRunning(input: Input, turns: nat -> Turn, count: nat)
    ensures |AskedFor(input, ListedBy(turns, count))| <= 1
    ensures forall id :: id in AskedFor(input, ListedBy(turns, count)) ==> SeenRunning(turns, count, id)
  {
    var i := AskedForFirst(input, ListedBy(turns, count));
    ListedAreSeen(turns, count);
    if Asked(input, turns, count) {
      var run := FoundAt(input, ListedBy(turns, count), i).value;
      assert SeenSnapshot(turns, count, ListedBy(turns, count)[i]);
      assert run in ListedBy(turns, count)[i].runs;
    }
  }

  /** A run was listed in `turns[..count]`, still running. */
  ghost predicate SeenRunning(turns: nat -> Turn, count: nat, id: RunId) {
    exists i: nat, r: Run :: i < count && turns(i).listing.Listed? && r in turns(i).listing.snapshot.runs &&
      r.id == id && !Terminal(r.status)
  }

  ghost predicate SeenSnapshot(turns: nat -> Turn, count: nat, snapshot: Snapshot) {
    exists i: nat :: i < count && turns(i).listing == Listed(snapshot)
  }

  lemma {:induction false} ListedAreSeen(turns: nat -> Turn, count: nat)
    ensures forall i :: 0 <= i < |ListedBy(turns, count)| ==> SeenSnapshot(turns, count, ListedBy(turns, count)[i])
  {
    if 0 < count {
      ListedAreSeen(turns, count - 1);
      forall i | 0 <= i < |ListedBy(turns, count)| ensures SeenSnapshot(turns, count, ListedBy(turns, count)[i]) {
        if i < |ListedBy(turns, count - 1)| { assert SeenSnapshot(turns, count - 1, ListedBy(turns, count - 1)[i]); }
      }
    }
  }
}
