/**
 * The development server's startup and shutdown. Startup acquires its resources across
 * several awaits and a shutdown may begin at any of them. Cleanup runs twice, before and
 * after startup is awaited, so that what startup assigns late is released too.
 */
module DevLifecycle {
  import opened Wrappers

  /** A resource startup acquired: each has its own number. */
  type Resource = nat

  datatype Startup =
    | NotStarted
    | Opening        // persistence is opening
    | Initializing   // the service is initializing
    | Listening      // the server waits for its port
    | Leasing        // the token lease is being made
    | Ended(ok: bool)

  /** Which await one cleanup pass stands at. */
  datatype CleanupStage = DisposingLease | ClosingStreams | ClosingServer | DisposingServer | AwaitingService
    | ClosingPersistence

  /** A cleanup pass: what it took over and has not released yet, and whether the service's shutdown is still out. */
  datatype Cleanup = Cleanup(
    stage: CleanupStage, server: Option<Resource>, persistence: Option<Resource>, servicePending: bool, failed: bool)

  datatype Shutdown =
    | NotStopped
    | FirstPass(cleanup: Cleanup)
    | AwaitingStartup(failed: bool)
    | SecondPass(cleanup: Cleanup, failed: bool)
    | Settled(failed: bool)

  /** `released` counts the releases of each resource; `next` numbers the next one. */
  datatype Dev = Dev(
    startup: Startup, shutdown: Shutdown, stopping: bool,
    persistence: Option<Resource>, service: Option<Resource>, devServer: Option<Resource>, tokenLease: Option<Resource>,
    token: Option<Resource>, released: multiset<Resource>, next: Resource)

  datatype Event =
    | Start
    | Opened(resolved: bool, built: bool)   // `built`: the service's constructor returns
    | Initialized(resolved: bool)
    | PortTaken(resolved: bool)
    | LeaseMade(resolved: bool)
    | Stop
    | CleanupContinues(resolved: bool)
    | ServiceShutDown(resolved: bool)
    | StartupAwaited

  function Releases(resource: Option<Resource>): multiset<Resource> {
    if resource.Some? then multiset{resource.value} else multiset{}
  }

  // ----- Cleanup -----

  /** The pass that takes over everything assigned so far, up to its first await. */
  function TakeOver(d: Dev): Cleanup {
    Cleanup(DisposingLease, d.devServer, d.persistence, true, false)
  }

  /** What the pass leaves behind: the token gone, the variables cleared, the service and the lease being released. */
  function TakenOver(d: Dev): Dev {
    d.(token := None, devServer := None, tokenLease := None, service := None, persistence := None,
       released := d.released + Releases(d.service) + Releases(d.tokenLease))
  }

  datatype Continued = Continued(cleanup: Cleanup, done: bool, released: multiset<Resource>)

  /** One more await of a pass settles; at `AwaitingService` it goes on only once the service has shut down. */
  function Continue(c: Cleanup, resolved: bool): Continued {
    var failed := c.failed || !resolved;
    match c.stage
    case DisposingLease =>
      Continued(c.(stage := if c.server.Some? then ClosingStreams else AwaitingService, failed := failed), false,
                multiset{})
    case ClosingStreams => Continued(c.(stage := ClosingServer, failed := failed), false, multiset{})
    case ClosingServer =>
      Continued(c.(stage := DisposingServer, server := None, failed := failed), false, Releases(c.server))
    case DisposingServer => Continued(c.(stage := AwaitingService, failed := failed), false, multiset{})
    case AwaitingService =>
      if c.servicePending then Continued(c, false, multiset{})
      else Continued(c.(stage := ClosingPersistence, persistence := None), false, Releases(c.persistence))
    case ClosingPersistence => Continued(c.(failed := failed), true, multiset{})
  }

  // ----- Steps -----

  predicate CanHappen(d: Dev, e: Event) {
    match e
    case Opened(_, _) => d.startup == Opening
    case Initialized(_) => d.startup == Initializing
    case PortTaken(_) => d.startup == Listening
    case LeaseMade(_) => d.startup == Leasing
    case CleanupContinues(_) => d.shutdown.FirstPass? || d.shutdown.SecondPass?
    case ServiceShutDown(_) => (d.shutdown.FirstPass? || d.shutdown.SecondPass?) && d.shutdown.cleanup.servicePending
    case StartupAwaited => d.shutdown.AwaitingStartup? && (d.startup.Ended? || d.startup == NotStarted)
    case _ => true
  }

  function Step(d: Dev, e: Event): Dev
    requires CanHappen(d, e)
  {
    match e
    case Start => if d.startup != NotStarted || d.stopping then d else d.(startup := Opening)
    case Opened(resolved, built) =>
      if !resolved then d.(startup := Ended(false))
      else if !built then d.(persistence := Some(d.next), startup := Ended(false), next := d.next + 1)
      else d.(persistence := Some(d.next), service := Some(d.next + 1), startup := Initializing, next := d.next + 2)
    case Initialized(resolved) =>
      if !resolved || d.stopping then d.(startup := Ended(resolved))
      else d.(devServer := Some(d.next), startup := Listening, next := d.next + 1)
    case PortTaken(resolved) =>
      if !resolved || d.stopping then d.(startup := Ended(resolved)) else d.(startup := Leasing)
    case LeaseMade(resolved) =>
      if !resolved then d.(startup := Ended(false))
      else
        var leased := d.(tokenLease := Some(d.next), startup := Ended(true), next := d.next + 1);
        if d.stopping then leased else leased.(token := Some(d.next))
    case Stop =>
      if d.shutdown != NotStopped then d.(stopping := true)
      else TakenOver(d).(stopping := true, shutdown := FirstPass(TakeOver(d)))
    case CleanupContinues(resolved) =>
      var continued := Continue(d.shutdown.cleanup, resolved);
      d.(released := d.released + continued.released,
         shutdown :=
           if d.shutdown.FirstPass? then
             if continued.done then AwaitingStartup(continued.cleanup.failed) else FirstPass(continued.cleanup)
           else
             if continued.done then Settled(d.shutdown.failed || continued.cleanup.failed)
             else SecondPass(continued.cleanup, d.shutdown.failed))
    case ServiceShutDown(resolved) =>
      var cleanup := d.shutdown.cleanup.(servicePending := false, failed := d.shutdown.cleanup.failed || !resolved);
      d.(shutdown := d.shutdown.(cleanup := cleanup))
    case StartupAwaited => TakenOver(d).(shutdown := SecondPass(TakeOver(d), d.shutdown.failed))
  }

  function Initial(): Dev {
    Dev(NotStarted, NotStopped, false, None, None, None, None, None, multiset{}, 0)
  }

  // ----- The process -----

  class DevProcessLifecycle {
    var startup: Startup
    var shutdown: Shutdown
    var stopping: bool

    constructor ()
      ensures startup == NotStarted && shutdown == NotStopped && !stopping
    {
      startup, shutdown, stopping := NotStarted, NotStopped, false;
    }
  }

  /** The server's module variables, with the lifecycle that guards them. */
  class DevServer {
    const lifecycle: DevProcessLifecycle
    var persistence: Option<Resource>
    var service: Option<Resource>
    var devServer: Option<Resource>
    var tokenLease: Option<Resource>
    var token: Option<Resource>
    ghost var released: multiset<Resource>
    var next: Resource

    ghost function Now(): Dev
      reads this, lifecycle
    {
      Dev(lifecycle.startup, lifecycle.shutdown, lifecycle.stopping, persistence, service, devServer, tokenLease,
          token, released, next)
    }

    /** What every step keeps, of this server as it stands. */
    ghost predicate Valid()
      reads this, lifecycle
    {
      Inv(Now())
    }

    constructor ()
      ensures fresh(lifecycle) && Valid() && Now() == Initial()
    {
      lifecycle := new DevProcessLifecycle();
      persistence, service, devServer, tokenLease, token := None, None, None, None, None;
      released, next := multiset{}, 0;
    }

    /**
     * Once this server has stopped, each resource it ever acquired has been released exactly once,
     * and it holds none.
     */
    lemma StoppedReleasedAll()
      requires Valid() && lifecycle.shutdown.Settled?
      ensures forall r: Resource :: released[r] == if r < next then 1 else 0
      ensures token.None? && tokenLease.None? && service.None? && persistence.None? && devServer.None?
    {
      forall r: Resource ensures released[r] == if r < next then 1 else 0 {
        assert Accounted(Now(), r);
      }
    }

    method Acquire() returns (resource: Resource)
      modifies this`next
      ensures resource == old(next) && next == old(next) + 1
    {
      resource := next;
      next := next + 1;
    }

    method Release(resource: Option<Resource>)
      modifies this`released
      ensures released == old(released) + Releases(resource)
    {
      released := released + Releases(resource);
    }

    /** `lifecycle.start`; `begun` is false where it throws. */
    method Start() returns (begun: bool)
      requires Valid()
      modifies lifecycle
      ensures Valid() && Now() == Step(old(Now()), Event.Start)
      ensures begun <==> old(lifecycle.startup) == NotStarted && !old(lifecycle.stopping)
    {
      StepKeeps(Now(), Event.Start);
      if lifecycle.startup != NotStarted { return false; }
      if lifecycle.stopping { return false; }
      lifecycle.startup := Opening;
      return true;
    }

    method AfterOpen(resolved: bool, built: bool)
      requires Valid()
      requires lifecycle.startup == Opening
      modifies this, lifecycle
      ensures Valid() && Now() == Step(old(Now()), Opened(resolved, built))
    {
      StepKeeps(Now(), Opened(resolved, built));
      if !resolved {
        lifecycle.startup := Ended(false);
        return;
      }
      var resource := Acquire();
      persistence := Some(resource);
      if !built {
        lifecycle.startup := Ended(false);
        return;
      }
      resource := Acquire();
      service := Some(resource);
      lifecycle.startup := Initializing;
    }

    method AfterInit(resolved: bool)
      requires Valid()
      requires lifecycle.startup == Initializing
      modifies this, lifecycle
      ensures Valid() && Now() == Step(old(Now()), Initialized(resolved))
    {
      StepKeeps(Now(), Initialized(resolved));
      if !resolved || lifecycle.stopping {
        lifecycle.startup := Ended(resolved);
        return;
      }
      var resource := Acquire();
      devServer := Some(resource);
      lifecycle.startup := Listening;
    }

    method AfterListen(resolved: bool)
      requires Valid()
      requires lifecycle.startup == Listening
      modifies lifecycle
      ensures Valid() && Now() == Step(old(Now()), PortTaken(resolved))
    {
      StepKeeps(Now(), PortTaken(resolved));
      lifecycle.startup := if !resolved || lifecycle.stopping then Ended(resolved) else Leasing;
    }

    method AfterLease(resolved: bool)
      requires Valid()
      requires lifecycle.startup == Leasing
      modifies this, lifecycle
      ensures Valid() && Now() == Step(old(Now()), LeaseMade(resolved))
    {
      StepKeeps(Now(), LeaseMade(resolved));
      lifecycle.startup := Ended(resolved);
      if !resolved { return; }
      var resource := Acquire();
      tokenLease := Some(resource);
      if lifecycle.stopping { return; }
      token := tokenLease;
    }

    /** The token goes, and the variables are cleared for what they held to be released. */
    method TakeVariables()
      returns (server: Option<Resource>, lease: Option<Resource>, activeService: Option<Resource>,
               activePersistence: Option<Resource>)
      modifies this`token, this`devServer, this`tokenLease, this`service, this`persistence
      ensures Now() == old(Now()).(token := None, devServer := None, tokenLease := None, service := None,
                                   persistence := None)
      ensures server == old(devServer) && lease == old(tokenLease)
      ensures activeService == old(service) && activePersistence == old(persistence)
    {
      token := None;
      server, lease := devServer, tokenLease;
      devServer, tokenLease := None, None;
      activeService, activePersistence := service, persistence;
      service, persistence := None, None;
    }

    /** `cleanupResources` up to its first await. */
    method BeginCleanup() returns (cleanup: Cleanup)
      modifies this
      ensures Now() == TakenOver(old(Now())) && cleanup == TakeOver(old(Now()))
    {
      var activeServer, activeTokenLease, activeService, activePersistence := TakeVariables();
      Release(activeService);
      Release(activeTokenLease);
      cleanup := Cleanup(DisposingLease, activeServer, activePersistence, true, false);
    }

    /** `lifecycle.stop`: only the first call cleans up. */
    method Stop()
      requires Valid()
      modifies this, lifecycle
      ensures Valid() && Now() == Step(old(Now()), Event.Stop)
    {
      StepKeeps(Now(), Event.Stop);
      lifecycle.stopping := true;
      if lifecycle.shutdown == NotStopped {
        var cleanup := BeginCleanup();
        lifecycle.shutdown := FirstPass(cleanup);
      }
    }

    method ContinueCleanup(resolved: bool)
      requires Valid()
      requires lifecycle.shutdown.FirstPass? || lifecycle.shutdown.SecondPass?
      modifies this, lifecycle
      ensures Valid() && Now() == Step(old(Now()), CleanupContinues(resolved))
    {
      StepKeeps(Now(), CleanupContinues(resolved));
      var continued := Continue(lifecycle.shutdown.cleanup, resolved);
      released := released + continued.released;
      match lifecycle.shutdown {
        case FirstPass(_) =>
          lifecycle.shutdown :=
            if continued.done then AwaitingStartup(continued.cleanup.failed) else FirstPass(continued.cleanup);
        case SecondPass(_, failed) =>
          lifecycle.shutdown :=
            if continued.done then Settled(failed || continued.cleanup.failed)
            else SecondPass(continued.cleanup, failed);
      }
    }

    method AfterServiceShutdown(resolved: bool)
      requires Valid()
      requires CanHappen(Now(), ServiceShutDown(resolved))
      modifies lifecycle
      ensures Valid() && Now() == Step(old(Now()), ServiceShutDown(resolved))
    {
      StepKeeps(Now(), ServiceShutDown(resolved));
      var cleanup := lifecycle.shutdown.cleanup;
      cleanup := cleanup.(servicePending := false, failed := cleanup.failed || !resolved);
      lifecycle.shutdown := lifecycle.shutdown.(cleanup := cleanup);
    }

    method AfterStartup()
      requires Valid()
      requires CanHappen(Now(), StartupAwaited)
      modifies this, lifecycle
      ensures Valid() && Now() == Step(old(Now()), StartupAwaited)
    {
      StepKeeps(Now(), StartupAwaited);
      var failed := lifecycle.shutdown.failed;
      var cleanup := BeginCleanup();
      lifecycle.shutdown := SecondPass(cleanup, failed);
    }
  }

  // ----- What every run keeps -----

  function Count(holder: Option<Resource>, resource: Resource): nat {
    if holder == Some(resource) then 1 else 0
  }

  /** The resource in a cleanup pass's hands, waiting for its release. */
  function CountPending(shutdown: Shutdown, resource: Resource): nat {
    if shutdown.FirstPass? || shutdown.SecondPass? then
      Count(shutdown.cleanup.server, resource) + Count(shutdown.cleanup.persistence, resource)
    else 0
  }

  /** Releases of the resource, together with those that still hold it. */
  function Total(d: Dev, resource: Resource): nat {
    d.released[resource] + Count(d.persistence, resource) + Count(d.service, resource) + Count(d.devServer, resource) +
    Count(d.tokenLease, resource) + CountPending(d.shutdown, resource)
  }

  predicate StageHolds(cleanup: Cleanup) {
    && (cleanup.stage in {DisposingServer, AwaitingService, ClosingPersistence} ==> cleanup.server.None?)
    && (cleanup.stage == ClosingPersistence ==> cleanup.persistence.None? && !cleanup.servicePending)
  }

  predicate Wired(d: Dev) {
    // Startup assigns each variable once.
    && (d.startup in {NotStarted, Opening} ==> d.persistence.None? && d.service.None?)
    && (d.startup in {NotStarted, Opening, Initializing} ==> d.devServer.None?)
    && (d.startup in {NotStarted, Opening, Initializing, Listening, Leasing} ==> d.tokenLease.None?)
    // No token outlives the start of a shutdown.
    && (d.stopping <==> d.shutdown != NotStopped)
    && (d.stopping ==> d.token.None?)
    && (d.shutdown.FirstPass? || d.shutdown.SecondPass? ==> StageHolds(d.shutdown.cleanup))
    // The second pass begins after startup has ended, and leaves nothing assigned.
    && (d.shutdown.SecondPass? || d.shutdown.Settled? ==>
          && (d.startup.Ended? || d.startup == NotStarted)
          && d.persistence.None? && d.service.None? && d.devServer.None? && d.tokenLease.None?)
  }

  /** A resource acquired is in exactly one pair of hands, or has been released once. */
  predicate Accounted(d: Dev, resource: Resource) {
    Total(d, resource) == if resource < d.next then 1 else 0
  }

  ghost predicate Inv(d: Dev) {
    Wired(d) && forall r: Resource :: Accounted(d, r)
  }

  lemma TakenOverTotal(d: Dev, taking: Shutdown, r: Resource)
    requires !d.shutdown.FirstPass? && !d.shutdown.SecondPass?
    requires (taking.FirstPass? || taking.SecondPass?) && taking.cleanup == TakeOver(d)
    ensures Total(TakenOver(d).(shutdown := taking), r) == Total(d, r)
  {
  }

  lemma ContinueTotal(c: Cleanup, resolved: bool, r: Resource)
    requires StageHolds(c)
    ensures var continued := Continue(c, resolved);
            && StageHolds(continued.cleanup)
            && continued.released[r] + Count(continued.cleanup.server, r) + Count(continued.cleanup.persistence, r)
               == Count(c.server, r) + Count(c.persistence, r)
            && (continued.done ==> continued.cleanup.server.None? && continued.cleanup.persistence.None?)
  {
  }

  lemma StartupTotal(d: Dev, e: Event, r: Resource)
    requires Wired(d) && CanHappen(d, e) && Accounted(d, r)
    requires e.Start? || e.Opened? || e.Initialized? || e.PortTaken? || e.LeaseMade?
    ensures Accounted(Step(d, e), r)
  {
  }

  lemma TakeOverTotal(d: Dev, e: Event, r: Resource)
    requires Wired(d) && CanHappen(d, e) && Accounted(d, r)
    requires e.Stop? || e.StartupAwaited?
    ensures Accounted(Step(d, e), r)
  {
    if e.StartupAwaited? {
      TakenOverTotal(d, SecondPass(TakeOver(d), d.shutdown.failed), r);
    } else if d.shutdown == NotStopped {
      TakenOverTotal(d, FirstPass(TakeOver(d)), r);
    }
  }

  lemma CleanupTotal(d: Dev, e: Event, r: Resource)
    requires Wired(d) && CanHappen(d, e) && Accounted(d, r)
    requires e.CleanupContinues? || e.ServiceShutDown?
    ensures Accounted(Step(d, e), r)
  {
    if e.CleanupContinues? { ContinueTotal(d.shutdown.cleanup, e.resolved, r); }
  }

  lemma StepWired(d: Dev, e: Event)
    requires Wired(d) && CanHappen(d, e)
    ensures Wired(Step(d, e))
  {
    if e.CleanupContinues? { ContinueTotal(d.shutdown.cleanup, e.resolved, 0); }
  }

  lemma StepKeeps(d: Dev, e: Event)
    requires Inv(d) && CanHappen(d, e)
    ensures Inv(Step(d, e))
  {
    StepWired(d, e);
    forall r: Resource ensures Accounted(Step(d, e), r) {
      assert Accounted(d, r);
      if e.Stop? || e.StartupAwaited? {
        TakeOverTotal(d, e, r);
      } else if e.CleanupContinues? || e.ServiceShutDown? {
        CleanupTotal(d, e, r);
      } else {
        StartupTotal(d, e, r);
      }
    }
  }

  ghost predicate Run(events: seq<Event>, states: seq<Dev>) {
    && |states| == |events| + 1 && states[0] == Initial()
    && forall i :: 0 <= i < |events| ==> CanHappen(states[i], events[i]) && states[i + 1] == Step(states[i], events[i])
  }

  lemma {:induction false} RunKeeps(events: seq<Event>, states: seq<Dev>, i: nat)
    requires Run(events, states) && i < |states|
    ensures Inv(states[i])
  {
    if i > 0 {
      RunKeeps(events, states, i - 1);
      StepKeeps(states[i - 1], events[i - 1]);
    }
  }

  /**
   * In any interleaving of startup with shutdown: once stop() has settled, every resource
   * startup ever assigned has been released exactly once, none is assigned, and there is
   * no token.
   */
  lemma SettledReleasesAll(events: seq<Event>, states: seq<Dev>, i: nat)
    requires Run(events, states) && i < |states| && states[i].shutdown.Settled?
    ensures forall r: Resource :: states[i].released[r] == if r < states[i].next then 1 else 0
    ensures states[i].token.None? && states[i].tokenLease.None? && states[i].service.None?
    ensures states[i].persistence.None? && states[i].devServer.None?
  {
    RunKeeps(events, states, i);
    forall r: Resource ensures states[i].released[r] == if r < states[i].next then 1 else 0 {
      assert Accounted(states[i], r);
    }
  }

  lemma SettledStays(d: Dev, e: Event)
    requires Wired(d) && d.shutdown.Settled? && CanHappen(d, e)
    ensures Step(d, e) == d
  {
  }

  /** Nothing changes after stop() has settled: the token is never set again and nothing is acquired or released. */
  lemma {:induction false} SettledForGood(events: seq<Event>, states: seq<Dev>, i: nat, j: nat)
    requires Run(events, states) && i <= j < |states| && states[i].shutdown.Settled?
    ensures states[j] == states[i]
    decreases j
  {
    if i < j {
      SettledForGood(events, states, i, j - 1);
      RunKeeps(events, states, j - 1);
      SettledStays(states[j - 1], events[j - 1]);
    }
  }

  /** From the start of a shutdown on, the token is empty: startup does not set it behind the shutdown's back. */
  lemma {:induction false} NoTokenOnceStopping(events: seq<Event>, states: seq<Dev>, i: nat, j: nat)
    requires Run(events, states) && i <= j < |states| && states[i].stopping
    ensures states[j].stopping && states[j].token.None?
    decreases j
  {
    RunKeeps(events, states, j);
    if i < j {
      NoTokenOnceStopping(events, states, i, j - 1);
    }
  }

  lemma ReleasedInPass(d: Dev, e: Event, held: Resource)
    requires CanHappen(d, e) && Accounted(d, held)
    requires (d.shutdown.FirstPass? || d.shutdown.SecondPass?) && d.shutdown.cleanup.persistence == Some(held)
    requires Step(d, e).released[held] > d.released[held]
    ensures e.CleanupContinues? && !d.shutdown.cleanup.servicePending
  {
  }

  /** Persistence is closed only after the service that uses it has shut down. */
  lemma PersistenceClosesLast(events: seq<Event>, states: seq<Dev>, i: nat)
    requires Run(events, states) && i < |events|
    requires states[i].shutdown.FirstPass? || states[i].shutdown.SecondPass?
    requires var held := states[i].shutdown.cleanup.persistence;
             held.Some? && states[i + 1].released[held.value] > states[i].released[held.value]
    ensures events[i].CleanupContinues? && !states[i].shutdown.cleanup.servicePending
  {
    RunKeeps(events, states, i);
    var held := states[i].shutdown.cleanup.persistence.value;
    assert Accounted(states[i], held);
    ReleasedInPass(states[i], events[i], held);
  }

  // ----- What startup comes to -----

  /** One of startup's own awaits was rejected, or its service could not be built. */
  predicate FailsStartup(e: Event) {
    || (e.Opened? && !(e.resolved && e.built)) || (e.Initialized? && !e.resolved) || (e.PortTaken? && !e.resolved)
    || (e.LeaseMade? && !e.resolved)
  }

  /** Startup fails exactly in a step that rejects it, and for good. */
  lemma StartupFails(d: Dev, e: Event)
    requires CanHappen(d, e)
    ensures Step(d, e).startup == Ended(false) <==> d.startup == Ended(false) || FailsStartup(e)
  {
  }

  ghost predicate StartupFailed(events: seq<Event>, i: nat) {
    exists k :: 0 <= k < i && k < |events| && FailsStartup(events[k])
  }

  /** In every run. */
  lemma {:induction false} StartupFailedIff(events: seq<Event>, states: seq<Dev>, i: nat)
    requires Run(events, states) && i < |states|
    ensures states[i].startup == Ended(false) <==> StartupFailed(events, i)
  {
    if i > 0 {
      StartupFailedIff(events, states, i - 1);
      StartupFails(states[i - 1], events[i - 1]);
    }
  }

  /** What startup has assigned by the time it stands there, unless a shutdown has begun. */
  predicate SetUp(d: Dev) {
    !d.stopping ==>
      && (d.startup in {Initializing, Listening, Leasing, Ended(true)} ==> d.persistence.Some? && d.service.Some?)
      && (d.startup in {Listening, Leasing, Ended(true)} ==> d.devServer.Some?)
      && (d.startup == Ended(true) ==> d.tokenLease.Some? && d.token == d.tokenLease)
      && (d.startup != Ended(true) ==> d.token.None?)
  }

  lemma StepSetsUp(d: Dev, e: Event)
    requires Wired(d) && SetUp(d) && CanHappen(d, e)
    ensures Wired(Step(d, e)) && SetUp(Step(d, e))
  {
    StepWired(d, e);
  }

  /** A server that has started, and is not stopping, holds all it needs, and its token is its lease's own. */
  lemma {:induction false} StartedHoldsAll(events: seq<Event>, states: seq<Dev>, i: nat)
    requires Run(events, states) && i < |states|
    ensures Wired(states[i]) && SetUp(states[i])
  {
    if i > 0 {
      StartedHoldsAll(events, states, i - 1);
      StepSetsUp(states[i - 1], events[i - 1]);
    }
  }

  /** Startup goes on from await to await while none is rejected, and a shutdown ends it at the next. */
  lemma StartupGoesOn(d: Dev, e: Event)
    requires CanHappen(d, e) && !FailsStartup(e)
    ensures Step(d, e).startup ==
            if e.Start? && d.startup == NotStarted && !d.stopping then Opening
            else if e.Opened? then Initializing
            else if e.Initialized? then if d.stopping then Ended(true) else Listening
            else if e.PortTaken? then if d.stopping then Ended(true) else Leasing
            else if e.LeaseMade? then Ended(true)
            else d.startup
  {
  }

  /** With nothing rejected and no shutdown, startup ends with everything assigned and the lease's token set. */
  lemma UndisturbedStartup()
    ensures var opening := Step(Step(Initial(), Event.Start), Opened(true, true));
            var leasing := Step(Step(opening, Initialized(true)), PortTaken(true));
            var d := Step(leasing, LeaseMade(true));
            && d.startup == Ended(true) && d.persistence == Some(0) && d.service == Some(1) && d.devServer == Some(2)
            && d.tokenLease == Some(3) && d.token == Some(3) && d.next == 4 && d.shutdown == NotStopped
  {
  }

  // ----- What a stop comes to -----

  /** An await of a cleanup pass was rejected: the service's shutdown, or one that the pass waits for in turn. */
  predicate RejectsCleanup(d: Dev, e: Event) {
    || (e.ServiceShutDown? && !e.resolved)
    || (e.CleanupContinues? && !e.resolved && (d.shutdown.FirstPass? || d.shutdown.SecondPass?) &&
        d.shutdown.cleanup.stage != AwaitingService)
  }

  /** The error that stop() will reject with is known by now. */
  predicate FailedSoFar(shutdown: Shutdown) {
    match shutdown
    case NotStopped => false
    case FirstPass(cleanup) => cleanup.failed
    case AwaitingStartup(failed) => failed
    case SecondPass(cleanup, failed) => failed || cleanup.failed
    case Settled(failed) => failed
  }

  lemma ContinueFails(c: Cleanup, resolved: bool)
    ensures Continue(c, resolved).cleanup.failed <==> c.failed || (!resolved && c.stage != AwaitingService)
    ensures Continue(c, resolved).done <==> c.stage == ClosingPersistence
  {
  }

  lemma CleanupFails(d: Dev, e: Event)
    requires CanHappen(d, e)
    ensures FailedSoFar(Step(d, e).shutdown) <==> FailedSoFar(d.shutdown) || RejectsCleanup(d, e)
  {
    if e.CleanupContinues? { ContinueFails(d.shutdown.cleanup, e.resolved); }
  }

  ghost predicate CleanupRejected(events: seq<Event>, states: seq<Dev>, i: nat) {
    exists k :: 0 <= k < i && k < |events| && k < |states| && RejectsCleanup(states[k], events[k])
  }

  lemma {:induction false} FailedIff(events: seq<Event>, states: seq<Dev>, i: nat)
    requires Run(events, states) && i < |states|
    ensures FailedSoFar(states[i].shutdown) <==> CleanupRejected(events, states, i)
  {
    if i > 0 {
      FailedIff(events, states, i - 1);
      CleanupFails(states[i - 1], events[i - 1]);
    }
  }

  /** stop() rejects if and only if an await of either of its passes did. */
  lemma SettledFailedIff(events: seq<Event>, states: seq<Dev>, i: nat)
    requires Run(events, states) && i < |states| && states[i].shutdown.Settled?
    ensures states[i].shutdown.failed <==> CleanupRejected(events, states, i)
  {
    FailedIff(events, states, i);
  }

  /** The awaits a pass still has before it. */
  function Left(cleanup: Cleanup): nat {
    (match cleanup.stage
     case DisposingLease => if cleanup.server.Some? then 6 else 3
     case ClosingStreams => 5
     case ClosingServer => 4
     case DisposingServer => 3
     case AwaitingService => 2
     case ClosingPersistence => 1)
    + if cleanup.servicePending then 1 else 0
  }

  /** A pass goes on with each await that settles, whatever failed, until it is done; it waits for the service alone. */
  lemma CleanupGoesOn(c: Cleanup, resolved: bool)
    requires StageHolds(c)
    ensures var continued := Continue(c, resolved);
            && (c.stage == AwaitingService && c.servicePending ==> continued == Continued(c, false, multiset{}))
            && (c.stage != AwaitingService || !c.servicePending ==>
                  if c.stage == ClosingPersistence then continued.done
                  else !continued.done && Left(continued.cleanup) < Left(c))
            && Left(c.(servicePending := false)) <= Left(c)
  {
  }

  /** A pass releases the server as it closes it, and persistence once its service has shut down; nothing else. */
  lemma CleanupReleases(c: Cleanup, resolved: bool)
    ensures Continue(c, resolved).released ==
            if c.stage == ClosingServer then Releases(c.server)
            else if c.stage == AwaitingService && !c.servicePending then Releases(c.persistence)
            else multiset{}
  {
  }

  /** What stop() still has to wait for, once startup has ended. */
  function Waits(shutdown: Shutdown): nat {
    match shutdown
    case NotStopped => 20
    case FirstPass(cleanup) => 10 + Left(cleanup)
    case AwaitingStartup(_) => 9
    case SecondPass(cleanup, _) => 1 + Left(cleanup)
    case Settled(_) => 0
  }

  /** The next await to settle; the service's shutdown does whenever it is waited for. */
  function NextWait(d: Dev): Event
    requires d.shutdown.FirstPass? || d.shutdown.SecondPass? || d.shutdown.AwaitingStartup?
  {
    if d.shutdown.AwaitingStartup? then StartupAwaited
    else if d.shutdown.cleanup.stage == AwaitingService && d.shutdown.cleanup.servicePending then ServiceShutDown(true)
    else CleanupContinues(true)
  }

  lemma WaitsLess(d: Dev)
    requires Wired(d) && (d.startup.Ended? || d.startup == NotStarted)
    requires d.shutdown.FirstPass? || d.shutdown.SecondPass? || d.shutdown.AwaitingStartup?
    ensures CanHappen(d, NextWait(d)) && Waits(Step(d, NextWait(d)).shutdown) < Waits(d.shutdown)
    ensures Step(d, NextWait(d)).startup == d.startup && Step(d, NextWait(d)).shutdown != NotStopped
  {
    if !d.shutdown.AwaitingStartup? { CleanupGoesOn(d.shutdown.cleanup, true); }
  }

  /** A stop that has begun always can settle: from any of its states, as its awaits settle one by one. */
  lemma {:induction false} StopSettles(d: Dev) returns (events: seq<Event>, states: seq<Dev>)
    requires Wired(d) && (d.startup.Ended? || d.startup == NotStarted) && d.shutdown != NotStopped
    ensures |states| == |events| + 1 && states[0] == d && |events| <= Waits(d.shutdown)
    ensures forall i :: 0 <= i < |events| ==>
              CanHappen(states[i], events[i]) && states[i + 1] == Step(states[i], events[i])
    ensures states[|events|].shutdown.Settled?
    decreases Waits(d.shutdown)
  {
    if d.shutdown.Settled? {
      events, states := [], [d];
    } else {
      var next := Step(d, NextWait(d));
      WaitsLess(d);
      StepWired(d, NextWait(d));
      events, states := StopSettles(next);
      events, states := [NextWait(d)] + events, [d] + states;
    }
  }
}
