/**
 * The software update controller: checks and downloads that settle later, and the
 * updater's own events in between. One controller step is a call, an updater event, or
 * the settling of a call; calls of one kind may overlap once an event has ended the
 * operation that the first began.
 */
module SoftwareUpdate {
  import opened Wrappers

  datatype Status = Unavailable | Idle | Checking | UpToDate | Available | Downloading | Downloaded | Errored
  datatype Operation = NoOperation | Check | Download
  datatype Progress = Progress(percent: real, transferred: real, total: real, bytesPerSecond: real)

  const CHECK_FAILED := "Could not check for updates."
  const DOWNLOAD_FAILED := "Could not download the update."
  const UNREADABLE := "Could not read the available update."

  /** The controller's fields; `checks` and `downloads` count the updater calls not yet settled. */
  datatype State = State(
    enabled: bool, listening: bool, timer: bool,
    status: Status, operation: Operation, availableVersion: Option<string>, lastCheckedAt: Option<int>,
    progress: Option<Progress>, errorMessage: Option<string>, checks: nat, downloads: nat)

  /** A version stands here as the controller reads it: None when it is not a valid one. */
  datatype Event =
    | Start
    | TimerFires
    | Dispose
    | CheckCalled
    | CheckSettled(resolved: bool, at: int)
    | DownloadCalled
    | DownloadSettled(resolved: bool)
    | CheckingForUpdate
    | UpdateAvailable(version: Option<string>, at: int)
    | UpdateNotAvailable(at: int)
    | DownloadProgress(percent: Number, transferred: Number, total: Number, bytesPerSecond: Number)
    | UpdateDownloaded(version: Option<string>)
    | UpdaterError

  function FiniteNonNegative(value: Number): (n: real)
    ensures 0.0 <= n
  {
    if value.Finite? && value.value > 0.0 then value.value else 0.0
  }

  function Min(a: real, b: real): real { if a < b then a else b }

  /**
   * Whatever the updater reports, the progress shown is within its own bounds, and a report within
   * them is shown as it is.
   */
  function NormalizeProgress(percent: Number, transferred: Number, total: Number, bytesPerSecond: Number): (p: Progress)
    ensures 0.0 <= p.percent <= 100.0 && 0.0 <= p.transferred <= p.total && 0.0 <= p.bytesPerSecond
    ensures percent.Finite? && 0.0 <= percent.value <= 100.0 ==> p.percent == percent.value
    ensures total.Finite? && transferred.Finite? && 0.0 <= transferred.value <= total.value ==>
              p.transferred == transferred.value && p.total == total.value
    ensures bytesPerSecond.Finite? && 0.0 <= bytesPerSecond.value ==> p.bytesPerSecond == bytesPerSecond.value
    // What lies beyond a bound is shown at it.
    ensures percent.Finite? && 100.0 < percent.value ==> p.percent == 100.0
    ensures total.Finite? && transferred.Finite? && 0.0 <= total.value < transferred.value ==>
              p.transferred == p.total == total.value
    ensures !percent.Finite? || percent.value < 0.0 ==> p.percent == 0.0
    ensures !total.Finite? || total.value < 0.0 ==> p.total == p.transferred == 0.0
  {
    var whole := FiniteNonNegative(total);
    Progress(Min(100.0, FiniteNonNegative(percent)), Min(whole, FiniteNonNegative(transferred)), whole,
             FiniteNonNegative(bytesPerSecond))
  }

  // ----- Steps -----

  function Created(enabled: bool): State {
    State(enabled, enabled, false, if enabled then Idle else Unavailable, NoOperation, None, None, None, None, 0, 0)
  }

  function Failed(s: State, message: string): State {
    s.(operation := NoOperation, status := Errored, progress := None, errorMessage := Some(message))
  }

  function BeginCheck(s: State): State {
    if !s.enabled || s.status in {Available, Downloading, Downloaded} || s.operation != NoOperation then s
    else s.(operation := Check, status := Checking, progress := None, errorMessage := None, checks := s.checks + 1)
  }

  function BeginDownload(s: State): State {
    if !s.enabled || s.availableVersion.None? || s.status == Downloaded || s.operation != NoOperation then s
    else s.(operation := Download, status := Downloading, progress := None, errorMessage := None,
            downloads := s.downloads + 1)
  }

  function SettleCheck(s: State, resolved: bool, at: int): State
    requires 0 < s.checks
  {
    var settled := s.(checks := s.checks - 1);
    if resolved then
      if s.status == Checking then
        settled.(operation := NoOperation, status := UpToDate, availableVersion := None, lastCheckedAt := Some(at),
                 errorMessage := None)
      else settled
    else if s.operation == Check then Failed(settled, CHECK_FAILED)
    else settled
  }

  function SettleDownload(s: State, resolved: bool): State
    requires 0 < s.downloads
  {
    var settled := s.(downloads := s.downloads - 1);
    if resolved then
      if s.status == Downloading then
        settled.(operation := NoOperation, status := Downloaded, progress := None, errorMessage := None)
      else settled
    else if s.operation == Download then Failed(settled, DOWNLOAD_FAILED)
    else settled
  }

  /** The event can happen: an updater event reaches a listener, and only a call still out settles. */
  predicate CanHappen(s: State, e: Event) {
    match e
    case TimerFires => s.timer
    case CheckSettled(_, _) => 0 < s.checks
    case DownloadSettled(_) => 0 < s.downloads
    case CheckingForUpdate => s.listening
    case UpdateAvailable(_, _) => s.listening
    case UpdateNotAvailable(_) => s.listening
    case DownloadProgress(_, _, _, _) => s.listening
    case UpdateDownloaded(_) => s.listening
    case UpdaterError => s.listening
    case _ => true
  }

  function Step(s: State, e: Event): State
    requires CanHappen(s, e)
  {
    match e
    case Start => if !s.enabled || s.timer then s else BeginCheck(s).(timer := true)
    case TimerFires => if s.status in {Idle, UpToDate, Errored} then BeginCheck(s) else s
    case Dispose => s.(timer := false, listening := false)
    case CheckCalled => BeginCheck(s)
    case CheckSettled(resolved, at) => SettleCheck(s, resolved, at)
    case DownloadCalled => BeginDownload(s)
    case DownloadSettled(resolved) => SettleDownload(s, resolved)
    case CheckingForUpdate => s.(status := Checking, progress := None, errorMessage := None)
    case UpdateAvailable(version, at) =>
      if version.None? then Failed(s, UNREADABLE)
      else s.(operation := NoOperation, status := Available, availableVersion := version, lastCheckedAt := Some(at),
              progress := None, errorMessage := None)
    case UpdateNotAvailable(at) =>
      s.(operation := NoOperation, status := UpToDate, availableVersion := None, lastCheckedAt := Some(at),
         progress := None, errorMessage := None)
    case DownloadProgress(percent, transferred, total, bytesPerSecond) =>
      s.(status := Downloading, progress := Some(NormalizeProgress(percent, transferred, total, bytesPerSecond)),
         errorMessage := None)
    case UpdateDownloaded(version) =>
      s.(operation := NoOperation, status := Downloaded,
         availableVersion := if version.Some? then version else s.availableVersion,
         progress := None, errorMessage := None)
    case UpdaterError => Failed(s, if s.operation == Download then DOWNLOAD_FAILED else CHECK_FAILED)
  }

  // ----- What every step keeps -----

  /** The operation and the status agree, and an operation has a call of its kind still out. */
  predicate Consistent(s: State) {
    && (s.operation == Check <==> s.status == Checking)
    && (s.operation == Download <==> s.status == Downloading)
    && (s.operation == Check ==> 0 < s.checks)
    && (s.operation == Download ==> 0 < s.downloads)
    && (s.status == Available ==> s.availableVersion.Some?)
    && (!s.enabled ==> s.status == Unavailable && !s.listening && s.checks == s.downloads == 0)
  }

  /** The updater announces a check only during one, and progress only during a download. */
  predicate Timely(s: State, e: Event) {
    && (e.CheckingForUpdate? ==> s.operation == Check)
    && (e.DownloadProgress? ==> s.operation == Download)
  }

  /** From a consistent state, a step stays consistent exactly when its event is timely. */
  lemma StepConsistent(s: State, e: Event)
    requires Consistent(s) && CanHappen(s, e)
    ensures Consistent(Step(s, e)) <==> Timely(s, e)
  {
    match e
    case CheckSettled(resolved, at) =>
    case DownloadSettled(resolved) =>
    case _ =>
  }

  lemma KeepsConsistent(s: State, e: Event)
    requires CanHappen(s, e)
    ensures Consistent(s) ==> (Consistent(Step(s, e)) <==> Timely(s, e))
  {
    if Consistent(s) { StepConsistent(s, e); }
  }

  // ----- What changes what is shown -----

  /** The call asks the updater for a check: none is ruled out by what is shown, and nothing is in operation. */
  predicate AsksForCheck(s: State, e: Event) {
    && (e.CheckCalled? || (e.Start? && !s.timer) || (e.TimerFires? && s.status in {Idle, UpToDate, Errored}))
    && s.enabled && s.operation == NoOperation
    && s.status != Available && s.status != Downloading && s.status != Downloaded
  }

  predicate AsksForDownload(s: State, e: Event) {
    e.DownloadCalled? && s.enabled && s.operation == NoOperation && s.availableVersion.Some? && s.status != Downloaded
  }

  /** The updater, or a check that resolves while one is shown, says that there is no update. */
  predicate FindsNone(s: State, e: Event) {
    e.UpdateNotAvailable? || (e.CheckSettled? && e.resolved && s.status == Checking)
  }

  predicate FindsUpdate(e: Event) {
    e.UpdateAvailable? && e.version.Some?
  }

  /** The updater, or a download that resolves while one is shown, says that the update is there. */
  predicate Finishes(s: State, e: Event) {
    e.UpdateDownloaded? || (e.DownloadSettled? && e.resolved && s.status == Downloading)
  }

  /** The error an event is about, if any: the updater's, an unreadable version, or the operation's own call's. */
  function ErrorOf(s: State, e: Event): Option<string> {
    if e.UpdateAvailable? && e.version.None? then Some(UNREADABLE)
    else if e.CheckSettled? && !e.resolved && s.operation == Check then Some(CHECK_FAILED)
    else if e.DownloadSettled? && !e.resolved && s.operation == Download then Some(DOWNLOAD_FAILED)
    else if e.UpdaterError? then Some(if s.operation == Download then DOWNLOAD_FAILED else CHECK_FAILED)
    else None
  }

  /** Each status is shown from an event that says so, until another says something else. */
  lemma StatusTells(s: State, e: Event)
    requires CanHappen(s, e)
    ensures Step(s, e).status ==
            if AsksForCheck(s, e) || e.CheckingForUpdate? then Checking
            else if FindsNone(s, e) then UpToDate
            else if FindsUpdate(e) then Available
            else if AsksForDownload(s, e) || e.DownloadProgress? then Downloading
            else if Finishes(s, e) then Downloaded
            else if ErrorOf(s, e).Some? then Errored
            else s.status
  {
  }

  /** The version is the one last found or downloaded, and none once there is no update. */
  lemma VersionTells(s: State, e: Event)
    requires CanHappen(s, e)
    ensures Step(s, e).availableVersion ==
            if FindsNone(s, e) then None
            else if FindsUpdate(e) || (e.UpdateDownloaded? && e.version.Some?) then e.version
            else s.availableVersion
    ensures Step(s, e).lastCheckedAt ==
            if FindsNone(s, e) || FindsUpdate(e) then Some(e.at) else s.lastCheckedAt
  {
  }

  /** An error stays until something else is shown, and what is shown of a download is what was reported last. */
  lemma ErrorTells(s: State, e: Event)
    requires CanHappen(s, e)
    ensures var shown := AsksForCheck(s, e) || AsksForDownload(s, e) || e.CheckingForUpdate? || e.DownloadProgress?;
            var found := FindsNone(s, e) || FindsUpdate(e) || Finishes(s, e);
            && Step(s, e).errorMessage ==
               (if ErrorOf(s, e).Some? then ErrorOf(s, e) else if shown || found then None else s.errorMessage)
            && Step(s, e).progress ==
               (if e.DownloadProgress? then
                  Some(NormalizeProgress(e.percent, e.transferred, e.total, e.bytesPerSecond))
                else if ErrorOf(s, e).Some? || shown || (found && !e.CheckSettled?) then None
                else s.progress)
  {
  }

  /** An operation begins when the updater is asked, and ends once its outcome is known. */
  lemma OperationTells(s: State, e: Event)
    requires CanHappen(s, e)
    ensures var t := Step(s, e);
            && t.operation == (if AsksForCheck(s, e) then Check
                               else if AsksForDownload(s, e) then Download
                               else if FindsNone(s, e) || FindsUpdate(e) || Finishes(s, e) || ErrorOf(s, e).Some? then
                                 NoOperation
                               else s.operation)
            && t.checks == (if AsksForCheck(s, e) then s.checks + 1
                            else if e.CheckSettled? then s.checks - 1 else s.checks)
            && t.downloads == (if AsksForDownload(s, e) then s.downloads + 1
                               else if e.DownloadSettled? then s.downloads - 1 else s.downloads)
            && (t.listening <==> s.listening && !e.Dispose?)
            && (t.timer <==> !e.Dispose? && (s.timer || (e.Start? && s.enabled)))
  {
  }

  /**
   * From a new controller: a check that finds a version, a download that is reported and resolves. The
   * version is ready to install, and the check's own settling, after it was found, has taken nothing back.
   */
  lemma FoundAndDownloaded(version: string, found: int, settled: int, percent: Number, transferred: Number,
                           total: Number, bytesPerSecond: Number)
    ensures var checking := Step(Created(true), CheckCalled);
            var available := Step(checking, UpdateAvailable(Some(version), found));
            var offered := Step(available, CheckSettled(true, settled));
            var told := Step(Step(offered, DownloadCalled),
                             DownloadProgress(percent, transferred, total, bytesPerSecond));
            var s := Step(told, DownloadSettled(true));
            && checking.status == Checking && offered.status == Available && told.status == Downloading
            && s.status == Downloaded && s.availableVersion == Some(version) && s.lastCheckedAt == Some(found)
            && s.errorMessage.None? && s.operation == NoOperation && s.checks == s.downloads == 0
  {
  }

  // ----- The controller -----

  class SoftwareUpdateController {
    const enabled: bool
    var listening: bool
    var timer: bool
    var status: Status
    var operation: Operation
    var availableVersion: Option<string>
    var lastCheckedAt: Option<int>
    var progress: Option<Progress>
    var errorMessage: Option<string>
    ghost var checks: nat
    ghost var downloads: nat

    ghost function Now(): State
      reads this
    {
      State(enabled, listening, timer, status, operation, availableVersion, lastCheckedAt,
            progress, errorMessage, checks, downloads)
    }

    /** What the steps of every timely run keep, of this controller as it stands. */
    ghost predicate Valid()
      reads this
    {
      Consistent(Now())
    }

    constructor (enabled: bool)
      ensures Now() == Created(enabled) && Valid()
    {
      this.enabled := enabled;
      listening, timer := enabled, false;
      status := if enabled then Idle else Unavailable;
      operation := NoOperation;
      availableVersion, lastCheckedAt, progress, errorMessage := None, None, None, None;
      checks, downloads := 0, 0;
    }

    method SetState(status: Status, progress: Option<Progress>, errorMessage: Option<string>)
      modifies this`status, this`progress, this`errorMessage
      ensures this.status == status && this.progress == progress && this.errorMessage == errorMessage
    {
      this.status, this.progress, this.errorMessage := status, progress, errorMessage;
    }

    method Fail(message: string)
      modifies this
      ensures Now() == Failed(old(Now()), message)
    {
      operation := NoOperation;
      SetState(Errored, None, Some(message));
    }

    /** `checkForUpdates` up to its await; `called` when the updater was asked. */
    method CheckForUpdates() returns (called: bool)
      modifies this
      ensures Now() == Step(old(Now()), CheckCalled)
      ensures old(Valid()) ==> Valid()
      ensures called <==> checks == old(checks) + 1
    {
      KeepsConsistent(Now(), CheckCalled);
      if !enabled || status in {Available, Downloading, Downloaded} { return false; }
      if operation != NoOperation { return false; }
      operation := Check;
      SetState(Checking, None, None);
      checks := checks + 1;
      return true;
    }

    /** `checkForUpdates` from its await on. */
    method AfterCheck(resolved: bool, now: int)
      requires 0 < checks
      modifies this
      ensures Now() == Step(old(Now()), CheckSettled(resolved, now))
      ensures old(Valid()) ==> Valid()
    {
      KeepsConsistent(Now(), CheckSettled(resolved, now));
      checks := checks - 1;
      if resolved {
        if status == Checking {
          operation := NoOperation;
          availableVersion, lastCheckedAt := None, Some(now);
          SetState(UpToDate, progress, None);
        }
      } else if operation == Check {
        Fail(CHECK_FAILED);
      }
    }

    /** `downloadUpdate` up to its await. */
    method DownloadUpdate() returns (called: bool)
      modifies this
      ensures Now() == Step(old(Now()), DownloadCalled)
      ensures old(Valid()) ==> Valid()
      ensures called <==> downloads == old(downloads) + 1
    {
      KeepsConsistent(Now(), DownloadCalled);
      if !enabled || availableVersion.None? || status == Downloaded { return false; }
      if operation != NoOperation { return false; }
      operation := Download;
      SetState(Downloading, None, None);
      downloads := downloads + 1;
      return true;
    }

    /** `downloadUpdate` from its await on. */
    method AfterDownload(resolved: bool)
      requires 0 < downloads
      modifies this
      ensures Now() == Step(old(Now()), DownloadSettled(resolved))
      ensures old(Valid()) ==> Valid()
    {
      KeepsConsistent(Now(), DownloadSettled(resolved));
      downloads := downloads - 1;
      if resolved {
        if status == Downloading {
          operation := NoOperation;
          SetState(Downloaded, None, None);
        }
      } else if operation == Download {
        Fail(DOWNLOAD_FAILED);
      }
    }

    method OnCheckingForUpdate()
      requires listening
      modifies this
      ensures Now() == Step(old(Now()), CheckingForUpdate)
      ensures old(Valid()) ==> (Valid() <==> old(operation) == Check)
    {
      KeepsConsistent(Now(), CheckingForUpdate);
      SetState(Checking, None, None);
    }

    method OnUpdateAvailable(version: Option<string>, now: int)
      requires listening
      modifies this
      ensures Now() == Step(old(Now()), UpdateAvailable(version, now))
      ensures old(Valid()) ==> Valid()
    {
      KeepsConsistent(Now(), UpdateAvailable(version, now));
      if version.None? {
        Fail(UNREADABLE);
        return;
      }
      operation := NoOperation;
      availableVersion, lastCheckedAt := version, Some(now);
      SetState(Available, None, None);
    }

    method OnUpdateNotAvailable(now: int)
      requires listening
      modifies this
      ensures Now() == Step(old(Now()), UpdateNotAvailable(now))
      ensures old(Valid()) ==> Valid()
    {
      KeepsConsistent(Now(), UpdateNotAvailable(now));
      operation := NoOperation;
      availableVersion, lastCheckedAt := None, Some(now);
      SetState(UpToDate, None, None);
    }

    method OnDownloadProgress(percent: Number, transferred: Number, total: Number, bytesPerSecond: Number)
      requires listening
      modifies this
      ensures Now() == Step(old(Now()), DownloadProgress(percent, transferred, total, bytesPerSecond))
      ensures old(Valid()) ==> (Valid() <==> old(operation) == Download)
    {
      KeepsConsistent(Now(), DownloadProgress(percent, transferred, total, bytesPerSecond));
      SetState(Downloading, Some(NormalizeProgress(percent, transferred, total, bytesPerSecond)), None);
    }

    method OnUpdateDownloaded(version: Option<string>)
      requires listening
      modifies this
      ensures Now() == Step(old(Now()), UpdateDownloaded(version))
      ensures old(Valid()) ==> Valid()
    {
      KeepsConsistent(Now(), UpdateDownloaded(version));
      operation := NoOperation;
      if version.Some? { availableVersion := version; }
      SetState(Downloaded, None, None);
    }

    method OnError()
      requires listening
      modifies this
      ensures Now() == Step(old(Now()), UpdaterError)
      ensures old(Valid()) ==> Valid()
    {
      KeepsConsistent(Now(), UpdaterError);
      Fail(if operation == Download then DOWNLOAD_FAILED else CHECK_FAILED);
    }

    method StartTimer()
      modifies this
      ensures Now() == Step(old(Now()), Start)
      ensures old(Valid()) ==> Valid()
    {
      KeepsConsistent(Now(), Start);
      if !enabled || timer { return; }
      var _ := CheckForUpdates();
      timer := true;
    }

    method OnTimer()
      requires timer
      modifies this
      ensures Now() == Step(old(Now()), TimerFires)
      ensures old(Valid()) ==> Valid()
    {
      KeepsConsistent(Now(), TimerFires);
      if status in {Idle, UpToDate, Errored} {
        var _ := CheckForUpdates();
      }
    }

    method Dispose()
      modifies this
      ensures Now() == Step(old(Now()), Event.Dispose)
      ensures old(Valid()) ==> Valid()
    {
      KeepsConsistent(Now(), Event.Dispose);
      timer := false;
      listening := false;
    }
  }

  // ----- What every run keeps -----

  /** A run from a new controller: each event can happen where it comes. */
  ghost predicate AnyRun(enabled: bool, events: seq<Event>, states: seq<State>) {
    && |states| == |events| + 1 && states[0] == Created(enabled)
    && forall i :: 0 <= i < |events| ==> CanHappen(states[i], events[i]) && states[i + 1] == Step(states[i], events[i])
  }

  /** Each event of the run is timely where it happens, too. */
  ghost predicate Run(enabled: bool, events: seq<Event>, states: seq<State>) {
    AnyRun(enabled, events, states) && forall i :: 0 <= i < |events| ==> Timely(states[i], events[i])
  }

  lemma {:induction false} RunConsistent(enabled: bool, events: seq<Event>, states: seq<State>, i: nat)
    requires Run(enabled, events, states) && i < |states|
    ensures Consistent(states[i])
  {
    if i > 0 {
      RunConsistent(enabled, events, states, i - 1);
      StepConsistent(states[i - 1], events[i - 1]);
    }
  }

  /**
   * The controller is never stuck: in every run of timely events, whatever calls overlap, in
   * whatever order they settle and whatever events come in between, with none left out
   * nothing is in operation, and a check or the download of a known update starts when called.
   */
  lemma NeverStuck(enabled: bool, events: seq<Event>, states: seq<State>, i: nat)
    requires Run(enabled, events, states) && i < |states| && states[i].checks == states[i].downloads == 0
    ensures var s := states[i];
            && s.operation == NoOperation && s.status !in {Checking, Downloading}
            && (s.enabled && s.status in {Idle, UpToDate, Errored} ==> BeginCheck(s).operation == Check)
            && (s.enabled && s.status == Available ==> BeginDownload(s).operation == Download)
  {
    RunConsistent(enabled, events, states, i);
  }

  /**
   * Without timely events it can be: progress announced during a check leaves the check in
   * operation for good once it resolves.
   */
  lemma StuckWhenUntimely(percent: Number, transferred: Number, total: Number, bytesPerSecond: Number, at: int)
    ensures var checking := Step(Created(true), CheckCalled);
            var told := Step(checking, DownloadProgress(percent, transferred, total, bytesPerSecond));
            var s := Step(told, CheckSettled(true, at));
            && s.checks == s.downloads == 0 && s.operation == Check && BeginCheck(s) == BeginDownload(s) == s
  {
  }

  /** Settling a call that no longer runs the operation changes nothing but the count of calls out. */
  lemma LateSettling(s: State, resolved: bool, at: int)
    requires Consistent(s)
    ensures 0 < s.checks && s.operation != Check ==> SettleCheck(s, resolved, at) == s.(checks := s.checks - 1)
    ensures 0 < s.downloads && s.operation != Download ==>
              SettleDownload(s, resolved) == s.(downloads := s.downloads - 1)
  {
  }

  // ----- What is shown -----

  /** An error is shown exactly with its message, progress only of a download, and an offer with its version. */
  predicate ShownWell(s: State) {
    && (s.status == Errored <==> s.errorMessage.Some?) && (s.progress.Some? ==> s.status == Downloading)
    && (s.status == UpToDate ==> s.availableVersion.None? && s.lastCheckedAt.Some?)
    && (s.status == Available ==> s.availableVersion.Some? && s.lastCheckedAt.Some?)
  }

  lemma StepShowsWell(s: State, e: Event)
    requires ShownWell(s) && CanHappen(s, e)
    ensures ShownWell(Step(s, e))
  {
    StatusTells(s, e);
    VersionTells(s, e);
    ErrorTells(s, e);
  }

  /** In every run, timely or not. */
  lemma {:induction false} AlwaysShownWell(enabled: bool, events: seq<Event>, states: seq<State>, i: nat)
    requires AnyRun(enabled, events, states) && i < |states|
    ensures ShownWell(states[i])
  {
    if i > 0 {
      AlwaysShownWell(enabled, events, states, i - 1);
      StepShowsWell(states[i - 1], events[i - 1]);
    }
  }

  /** An update is ready to install only after the updater, or a download that resolved while shown, said so. */
  lemma {:induction false} DownloadedBehind(enabled: bool, events: seq<Event>, states: seq<State>, i: nat)
    returns (k: nat)
    requires AnyRun(enabled, events, states) && i < |states| && states[i].status == Downloaded
    ensures k < i && Finishes(states[k], events[k]) && states[k + 1].status == Downloaded
  {
    if i == 0 {
      assert false;
    } else {
      StatusTells(states[i - 1], events[i - 1]);
      k := i - 1;
      if !Finishes(states[i - 1], events[i - 1]) { k := DownloadedBehind(enabled, events, states, i - 1); }
    }
  }
}
