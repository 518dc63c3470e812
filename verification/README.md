# Task Monki: verified models of its stateful cores

This project models seven parts of Task Monki that hold state, interleave, parse or bound
something, and proves what each of them promises. `dafny verify dfyconfig.toml` checks all of it.

**Design canvas host** (`src/electron/DesignCanvasHost.ts`). Each method is cut at its awaits; what
runs between two awaits is one step. `DesignCanvas` holds the state (sessions, the window, calls in
flight with the await each stands at) and the steps, and its surroundings choose freely which call
goes on next and how its await settled. `CanvasHost` has the objects themselves: classes whose
methods change the fields in place, loop over the sessions as the source does, are proved to do
what the steps say, and keep the objects safe; those that run straight through have no row below. On
the steps are proved:

- what every interleaving keeps (`CanvasSafety`, `CanvasFrames`);
- what a cutover lease may rely on while its token is the fence (`CanvasFences`), so exactly when its
  activation returns with what was requested on show (`CanvasLeases`), a guard its caller can check
  when it takes the fence (`CanvasGuards`), and that a lease without its fence attaches nothing for
  good (`CanvasSuperseded`);
- what each await of a call in flight decides, and so what lies behind an activation over any run
  (`CanvasCalls`): whatever a lease attaches, its own awaits have resolved, opened and loaded
  (`CanvasReturns`), and an activation that nothing disturbs does come to that (`CanvasCommits`);
- what each of the host's methods does to every session at once (`CanvasEffects`);
- which views the window really holds (`CanvasChildren`);
- what two overlapping cutovers of one design can do from reachable states: leave a view behind, and
  return normally with the wrong route on show (`CanvasOverlap`);
- the links waiting for an approval (`CanvasLinks`), and where a view is placed (`CanvasBounds`).

**Provider smoke pass** (`src/dev/providerSmoke.ts`). `SmokeRuns` is the best-effort cancellation of
one run, `SmokeTarget` one target's closure racing its boundary and the cancellation they share, next
to the run its task really has, `SmokeVerdicts` what changes each of its fields and when its verdict is
safe, and `SmokeScheduler` the queue that is refilled from a catalog that may change on every read, with
the report's verdict.

**Git diff paths** (`src/shared/gitDiffPaths.ts`). `GitDiffPaths` writes down Git's own printer and
proves for which names the readers undo it, exactly.

**Software updates** (`src/electron/SoftwareUpdateController.ts`), **the development process**
(`src/dev/devProcessLifecycle.ts`, `src/dev/server.ts`), **review finding decisions**
(`src/shared/agentReviewFindings.ts`) and **check logs** (`src/shared/pullRequestActions.ts`) are one
module each, `SoftwareUpdate`, `DevLifecycle`, `AgentReviewFindings` and `CheckLog`; `CheckLogLines` says
what is shown of each line, and `CheckLogTail` compares the end of a long log that is read with the whole
log.

Where a property does not hold of the code as it stands, the model keeps the code, a lemma gives an
input at which it fails, and another the exact condition:

- A lease's normal return is to leave its design on show or its session empty and denied. An earlier
  activation that waits for its proxy can make its own route active over it, and the commit then
  succeeds with the wrong route on show (`CanvasOverlap.ShownOver`). `CanvasLeases.FinishShowsIff` and
  `LeaseReturnsIff` say exactly when it returns well, and `LeaseReturnsWell` that it does when no other
  call makes a route active meanwhile. `CanvasGuards.GuardedReturnsWell` says so for a lease that is
  driven once, with a guard on the state in which it takes the fence: no activation of the session waits
  there to close a network lease or to set its proxy. Neither guard is necessary, as the other route may
  be of the same identity, which `CanvasOverlap.ShownOver` shows as well.
- A lease that returns normally with its session attached is to have loaded its view. Its load can have
  failed where another activation's view had replaced its own (`CanvasOverlap.FailedLoadShown`), and only
  there (`CanvasCalls.LoadSettles`, `AttachedHistory`); with no other route made active meanwhile it has not
  failed (`CanvasReturns.AttachedLoaded`).
- The window holds exactly the attached sessions' views after every step but one
  (`CanvasChildren.StepMatchesIff`, `CanvasOverlap.ViewLeftBehind`).
- A smoke target released as safe is to leave no run at work. It leaves one exactly when the start of a
  run that was admitted is rejected, no cancellation begins, and the final listing fails
  (`SmokeTarget.ReleasedAtWorkIff`, `ReleasedAtWork`); the pass then goes on
  (`SmokeScheduler.GoesOnWithRunAtWork`), though never to an authoritative report.
- An authoritative report is to mean that every model asked for ran. A model asked for ran exactly where
  a catalog read during the pass offers it for the selection (`SmokeScheduler.RunProviderSmoke`), and
  one that no catalog offers can leave the selection complete (`SmokeScheduler.AskedNotOffered`).
- The comment at `src/shared/pullRequestActions.ts:246` says the first cut of a log never reaches what
  is shown. An error before the last million characters is lost (`CheckLogTail.ErrorNeverRead`), and so
  are earlier lines that would show where cleaning removes most of what was read;
  `CheckLogTail.EndShowsSameIff` says exactly when the end that is read shows the lines that the whole
  log would.
- A header with unquoted names is read back if and only if the name was kept, or the old name holds no
  ` b/` and the new one does not mirror it (`GitDiffPaths.UnquotedRoundTrip`); otherwise one header can
  stand for two renames (`GitDiffPaths.OneHeaderForTwo`, `GitDiffPaths.UnquotedMisread`).
- The update controller stays consistent exactly under events that come in their own operation
  (`SoftwareUpdate.StepConsistent`); progress announced during a check leaves it stuck
  (`SoftwareUpdate.StuckWhenUntimely`).

## Model

| member | source | states |
|---|---|---|
| CanvasSafety.StepKeeps | src/electron/DesignCanvasHost.ts:207-752 | Every step of every call keeps: an attached session has a view and a request, at most one session is requested, a closing session is not, and mapped sessions are of the renderer's epoch |
| CanvasSafety.RunKeeps | src/electron/DesignCanvasHost.ts:207-752 | The same in every state of every run |
| CanvasSafety.OneDesignAttached | src/electron/DesignCanvasHost.ts:315-346 | In every reachable state at most one design is requested, and an attached session has a view and is that one, so at most one design's view is attached |
| CanvasSafety.ClosingTakesNothing | src/electron/DesignCanvasHost.ts:371-392 | While a close is in flight its session is requested by nobody and has nothing attached, whatever else happens |
| CanvasSafety.EpochsAgree | src/electron/DesignCanvasHost.ts:211-238 | A mapped session is its design's own, of the renderer's epoch, and shows a request no later than the last it accepted |
| CanvasFrames.StepFrame | src/electron/DesignCanvasHost.ts:240-346 | A step keeps, drops or newly hands out each session's token and view, and within an epoch no accepted request id goes down |
| CanvasFrames.RunFrame | src/electron/DesignCanvasHost.ts:240-346 | The same between any two states of a run |
| CanvasFrames.AcceptedIdsGrow | src/electron/DesignCanvasHost.ts:690-696 | While the renderer's epoch lasts, the request ids a session accepts are non-decreasing |
| CanvasFrames.FencesAreOld | src/electron/DesignCanvasHost.ts:264-265 | Every token and view a session holds was handed out earlier in the run |
| CanvasFences.OtherStepAside | src/electron/DesignCanvasHost.ts:257-346 | Every step that is not a lease's own and makes no route of its session active at most denies the network and drops the view while the lease's token is the fence; it opens nothing, sets no view, and leaves the lease's calls alone |
| CanvasLeases.TakesHolds | src/electron/DesignCanvasHost.ts:263-271 | A cutover that takes the fence starts with what holds under a lease, whatever earlier activations still wait for |
| CanvasLeases.LeaseStep | src/electron/DesignCanvasHost.ts:257-313 | Every step keeps what holds of the session under the lease, where the route made active last is the step's own if it makes one active: denied and empty until one is, that identity's view after |
| CanvasLeases.LeaseReturns | src/electron/DesignCanvasHost.ts:596-620 | The step in which a lease's activation comes to return normally leaves its session attached with routes allowed and the requested identity active, or without a view and denied, if and only if nothing can be attached for its identity or the route made active last is its own, or, stopping short, it is attached and the requested identity is that of the route made active last, or it is not and the network is denied |
| CanvasLeases.FinishShowsIff | src/electron/DesignCanvasHost.ts:611-619 | The last step of an activation with its fence leaves its session well shown if and only if nothing can be attached for its identity, or routes are allowed and the active route is of its own identity |
| CanvasLeases.LeaseReturnsIff | src/electron/DesignCanvasHost.ts:257-313 | Over any run from the step that takes the fence to a normal return, with no hypothesis on other calls: the session is well shown if and only if it ends well, judged by the run's history: the identity whose route was made active last since the lease began, and whether the network was denied since; if no route was, it is well shown |
| CanvasLeases.LeaseReturnsWell | src/electron/DesignCanvasHost.ts:257-313 | So a lease during which no other call makes a route of its session active is well shown when it returns normally, over any run, with shows, hides, resets, closes, detaches and further cutovers in between |
| CanvasReturns.AttachedLoaded | src/electron/DesignCanvasHost.ts:257-313 | If the session of such a lease is then attached, the returning call's own awaits have resolved its route, safe to load, with the fence standing and the identity asked for, closed the old network lease, set a leased route's proxy, opened the route in a new view and loaded it, in this order, and the load did not fail |
| CanvasGuards.GuardedReturnsWell | src/electron/DesignCanvasHost.ts:257-313 | A guard on the moment the fence is taken: with no activation of the session waiting there to close a network lease or to set its proxy, and the lease driven by a single activation, its normal return is well shown, over any run |
| CanvasCalls.StepStays | src/electron/DesignCanvasHost.ts:257-392 | No step changes a call in flight but the one that goes on, and new activations only start |
| CanvasCalls.ResolveSettles | src/electron/DesignCanvasHost.ts:603-611 | A resolved route is gone on with if and only if it is safe to load, the fence stands and its identity is still asked for; it is released, with the session left alone, if either of the last two is not so; a resolution that fails or is not safe fails the activation |
| CanvasCalls.ReleaseSettles | src/electron/DesignCanvasHost.ts:604-608 | After releasing a route the activation returns normally if and only if that did not fail and its fence stands |
| CanvasCalls.ClosingSettles | src/electron/DesignCanvasHost.ts:463-486 | With the old network lease closed, a leased route waits for its proxy and any other is opened: the network open to it, its identity active, its origins the last ones, in a new view unless none can be created; where closing fails nothing changes |
| CanvasCalls.ProxySettles | src/electron/DesignCanvasHost.ts:466-486 | With its proxy set a leased route is opened; where that fails nothing changes |
| CanvasCalls.LoadSettles | src/electron/DesignCanvasHost.ts:491-511 | A load that fails while its view and generation are still the session's denies the network, leaves no view, and fails the activation; any other load has it go on, and changes nothing |
| CanvasCalls.ReloadSettles | src/electron/DesignCanvasHost.ts:497-510 | A reload that fails does the same to its session, and no other does |
| CanvasCalls.FinishSettles | src/electron/DesignCanvasHost.ts:611-619 | The last step attaches the view if and only if the fence stands, the identity is still asked for, and the view is live and would show something; without the fence it fails and changes nothing, and else it leaves the network denied and no view |
| CanvasCalls.AttachedHistory | src/electron/DesignCanvasHost.ts:596-620 | Over any run, with no hypothesis on other calls: a lease attaches only what its own awaits resolved, opened and loaded, in this order; its load did not fail unless its view or generation had been replaced by then |
| CanvasCalls.RejectedLoad | src/electron/DesignCanvasHost.ts:497-510 | A load that fails while its view and generation are the session's leaves it dark, and its activation never comes to return normally in the rest of any run |
| CanvasCommits.CommitDrives | src/electron/DesignCanvasHost.ts:288-290 | A commit starts to resolve if its fence stands and its candidate is asked for, returns normally if only the first, and throws otherwise |
| CanvasCommits.UndisturbedReturns | src/electron/DesignCanvasHost.ts:596-620 | From any state: an activation with its fence standing, its identity asked for and something to show, whose awaits all settle, returns normally with its session attached, its own route active and the network open to it |
| CanvasCommits.ReleasesOn | src/electron/DesignCanvasHost.ts:288-296 | Then it lets go of its fence, and its call ends or goes on as a show's |
| CanvasSuperseded.WhoAttaches | src/electron/DesignCanvasHost.ts:698-727 | A view is attached in no other steps than a lease's last one, with its token still the fence, its view live and its identity requested, or a show of what is already active while no cutover is under way |
| CanvasSuperseded.LateDrive | src/electron/DesignCanvasHost.ts:288-311 | A commit or rollback of a lease whose token is no longer the fence throws and changes no session and no window |
| CanvasSuperseded.DriveSettles | src/electron/DesignCanvasHost.ts:291-310 | A settled commit or rollback has let go of its fence, and a late one has changed nothing |
| CanvasSuperseded.SupersededForGood | src/electron/DesignCanvasHost.ts:240-313 | Once the fence is not the lease's token, by a later cutover, a detach or its own settling, it never is again: the lease attaches nothing and each later drive of it throws |
| CanvasChildren.DetachedNothing | src/electron/DesignCanvasHost.ts:226-255 | Detaching leaves nothing attached anywhere, so a new window starts with no view |
| CanvasChildren.InstallMatches | src/electron/DesignCanvasHost.ts:459-489 | Setting a view keeps the window right exactly when its session was not attached to it |
| CanvasChildren.StepMatchesIff | src/electron/DesignCanvasHost.ts:719-739 | The window holds exactly the attached sessions' views after a step if and only if the step does not set a view on an attached session |
| CanvasChildren.RunMatches | src/electron/DesignCanvasHost.ts:719-739 | The same over runs |
| CanvasChildren.OneViewInWindow | src/electron/DesignCanvasHost.ts:648-659 | So the live window holds no view, or one, which is the requested design's |
| CanvasOverlap.ViewLeftBehind | src/electron/DesignCanvasHost.ts:464-486 | A reachable state whose next step leaves a view behind: an activation waiting for its proxy sets its view after a later cutover of the design has attached |
| CanvasOverlap.ShownOver | src/electron/DesignCanvasHost.ts:464-489 | A reachable state whose next step is the normal return of a later lease after the earlier activation has set its view: the session is attached with the earlier route active and the later one requested, well shown if and only if both are of one identity |
| CanvasOverlap.FailedLoadShown | src/electron/DesignCanvasHost.ts:497-503 | A reachable state in which a lease's load fails and the lease still returns normally with its session attached, as the earlier activation's view has replaced its own |
| CanvasLinks.PruneKeepsNewest | src/electron/DesignCanvasHost.ts:741-751 | Pruning keeps unexpired links in order and drops one only for sixteen newer ones |
| CanvasLinks.RetainsNewest | src/electron/DesignCanvasHost.ts:679-684 | What is retained is the newest unexpired link, or nothing when all have expired |
| CanvasLinks.RequestedLink | src/electron/DesignCanvasHost.ts:538-555 | A page's request adds one link with a new id and the lifetime it waits for, within the bound |
| CanvasLinks.StepLinks | src/electron/DesignCanvasHost.ts:661-671 | In every other step but an approval nothing is opened, and a session keeps its links, the newest unexpired one, or none |
| CanvasLinks.LinksBounded | src/electron/DesignCanvasHost.ts:394-404 | In every reachable state no session has more than sixteen links and no id has been opened twice |
| CanvasLinks.OpensIff | src/electron/DesignCanvasHost.ts:394-404 | A step opens a link if and only if it is approved for its own design, still waits there and has not expired, and then that link alone |
| CanvasEffects.ApprovalUses | src/electron/DesignCanvasHost.ts:394-404 | An approval takes the named link from its design's waiting ones, in any case, and opens it if it has not expired; nothing else changes |
| CanvasBounds.NormalizeBounds | src/electron/DesignCanvasHost.ts:762-792 | A shown rectangle is not empty, lies in the content area, and has each edge within half a pixel of the exact clipped edge |
| CanvasBounds.HiddenRect | src/electron/DesignCanvasHost.ts:767-790 | Valid bounds are not shown only where at most one pixel of them lies in the content area, across or down |
| CanvasBounds.SharedEdge | src/electron/DesignCanvasHost.ts:779-791 | Rectangles that share an edge are shown meeting there, with no gap and no overlap |
| CanvasHost.DesignCanvasHost.OneAttached | src/electron/DesignCanvasHost.ts:648-659 | In a host whose objects are safe at most one session's view is attached, and it is the mapped session of its design, whose request it shows |
| CanvasHost.CanvasSession.PrunePendingLinks | src/electron/DesignCanvasHost.ts:741-751 | Its two loops leave exactly the newest sixteen unexpired links |
| CanvasHost.CanvasSession.RetainLatestExternalApproval | src/electron/DesignCanvasHost.ts:679-684 | Only the newest unexpired link stays |
| CanvasHost.CanvasSession.AcceptRequest | src/electron/DesignCanvasHost.ts:690-696 | A request id is accepted if and only if it is a safe integer, of the renderer's epoch and not below the last one, and then it is the last one |
| CanvasHost.DesignCanvasHost.ApplyBounds | src/electron/DesignCanvasHost.ts:698-717 | Bounds that show nothing deactivate the session; others change nothing else |
| CanvasHost.DesignCanvasHost.RequireSession | src/electron/DesignCanvasHost.ts:420-449 | The design's session, made where it has none, and none where it is closing |
| CanvasHost.DesignCanvasHost.DeactivateOtherDesigns | src/electron/DesignCanvasHost.ts:648-659 | The loop deactivates exactly the other designs' sessions that have anything to deactivate |
| CanvasHost.DesignCanvasHost.HandleGenerationUnavailable | src/electron/DesignCanvasHost.ts:406-412 | The loop deactivates exactly the sessions whose active route is of the generation, and the host stays safe |
| CanvasHost.DesignCanvasHost.OnRendererReset | src/electron/DesignCanvasHost.ts:211-219 | Every mapped session joins the next epoch deactivated, with no link left, and the host stays safe |
| CanvasHost.DesignCanvasHost.AttachWindow | src/electron/DesignCanvasHost.ts:226-238 | A new window detaches the old one and starts an epoch that every mapped session joins; the same window changes nothing; the host stays safe |
| CanvasHost.DesignCanvasHost.DetachWindow | src/electron/DesignCanvasHost.ts:240-255 | Every mapped session loses its fence and is deactivated, and the host stays safe |
| CanvasHost.DesignCanvasHost.Begin | src/electron/DesignCanvasHost.ts:257-269 | Up to its first await: a valid cutover takes the fence with a new token and denies the network, and the host stays safe |
| CanvasHost.DesignCanvasHost.ContinueBegin | src/electron/DesignCanvasHost.ts:269-286 | After it: the view is destroyed, the origins cleared one by one, and the lease handed out only if its token is still the fence; the host stays safe |
| CanvasHost.DesignCanvasHost.Rollback | src/electron/DesignCanvasHost.ts:298-311 | A rollback activates the replaced route, or forgets the active one and the fence where there is none, and the host stays safe |
| CanvasHost.DesignCanvasHost.Show | src/electron/DesignCanvasHost.ts:315-346 | Up to its first await: an accepted request makes the other designs give way and is recorded, then begins a cutover, waits behind one, or places what is active; the host stays safe, so its design is the only one requested |
| CanvasHost.DesignCanvasHost.Refresh | src/electron/DesignCanvasHost.ts:348-369 | An accepted refresh of the requested generation shows again without a live view and reloads with one, unless a cutover is under way; the host stays safe |
| CanvasHost.DesignCanvasHost.ContinueClose | src/electron/DesignCanvasHost.ts:377-391 | A close clears the origins and forgets the session, or opens it again where that fails, and the host stays safe |
| CanvasEffects.UnavailableDarkens | src/electron/DesignCanvasHost.ts:406-412 | Exactly the mapped sessions that have the generation active lose their request and view, with the network denied and the newest link kept; every other session stays as it is |
| CanvasEffects.HideDarkens | src/electron/DesignCanvasHost.ts:341-346 | A hide whose id is accepted darkens its own design alone; any other changes nothing |
| CanvasEffects.RefreshReloads | src/electron/DesignCanvasHost.ts:348-369 | An accepted refresh of the generation requested, with no cutover under way, starts a reload of the live view and changes nothing else but the id |
| CanvasEffects.RefreshShows | src/electron/DesignCanvasHost.ts:364-367 | Without a live view it shows again what was last requested, under the new id |
| CanvasEffects.RefreshElse | src/electron/DesignCanvasHost.ts:353-363 | Any other refresh records its id, if that is accepted, and nothing else |
| CanvasEffects.RequestGives | src/electron/DesignCanvasHost.ts:648-659 | A request recorded for a design darkens every other mapped design that has a request, a view or the network open, and leaves the rest |
| CanvasEffects.ShowRefused | src/electron/DesignCanvasHost.ts:315-318 | A show of no valid identity or of a closing design changes nothing, and one not accepted at most makes the session |
| CanvasEffects.ShowPresents | src/electron/DesignCanvasHost.ts:318-338 | Any other is requested, and then waits where a cutover is under way, attaches a live view of its identity or leaves nothing if its bounds show nothing, or begins a cutover from the active route |
| CanvasEffects.CutoverBegins | src/electron/DesignCanvasHost.ts:257-269 | A cutover between valid routes of one task, for a design that is not closing, takes the fence with a new token, denies the network, keeps the newest link, and waits for the connections |
| CanvasEffects.CutoverRefused | src/electron/DesignCanvasHost.ts:258-263 | Any other is refused, and changes nothing |
| CanvasEffects.BeginFailing | src/electron/DesignCanvasHost.ts:275-286 | A beginning whose await fails ends, and gives back the fence if it is its own |
| CanvasEffects.UndisturbedBegin | src/electron/DesignCanvasHost.ts:266-274 | With the fence standing, one await for the connections and one for each of the last origins hand out the lease |
| CanvasEffects.CloseDarkens | src/electron/DesignCanvasHost.ts:371-377 | A close darkens its design, keeps no link, and waits for the connections; a second one joins it |
| CanvasEffects.CloseSettles | src/electron/DesignCanvasHost.ts:377-391 | After the connections and each last origin the session is forgotten, with no route, fence or link, and its design free for a new one; a failure lets the design be closed again |
| CanvasEffects.RollbackDrives | src/electron/DesignCanvasHost.ts:298-311 | A rollback activates the replaced route; with none, no route is active and the fence is let go, if it stands, and the rollback throws otherwise |
| CanvasEffects.DetachDarkens | src/electron/DesignCanvasHost.ts:240-255 | Every mapped session loses its fence, request, view and links, and no other session changes |
| CanvasEffects.WindowTakesOver | src/electron/DesignCanvasHost.ts:226-238 | A new window does the same in a new epoch in which no request has been accepted |
| CanvasEffects.ResetDarkens | src/electron/DesignCanvasHost.ts:211-219 | A renderer's reset darkens every mapped session in a new epoch, and leaves its fence |
| CanvasEffects.ShowsAgain | src/electron/DesignCanvasHost.ts:330-334 | A show whose commit has settled shows again if and only if something is requested and its identity is not active in a live view |
| SmokeRuns.LatestTaskRun | src/dev/providerSmoke.ts:2260-2267 | The task's run that started last, if it has any |
| SmokeRuns.LatestIsFirst | src/dev/providerSmoke.ts:2260-2267 | Of runs that started last together, the first listed |
| SmokeRuns.ObservedRun | src/dev/providerSmoke.ts:2296-2300 | The known run, or the task's latest one while none is known |
| SmokeRuns.CancelTaskRunBestEffort | src/dev/providerSmoke.ts:2269-2354 | Over any snapshots and timing: it takes a turn while its deadline has not passed, its one request is for the run first found still running, and it ends only for its deadline, a listing that timed out, a run uncontained at its end, or one contained with no request pending; safe if and only if the run judged, the known one or its task's latest when first seen, was seen contained with no request pending |
| SmokeRuns.FollowedFirst | src/dev/providerSmoke.ts:2296-2301 | With no run known, the run followed is the task's latest in the first listing that has one of the task, and stays so |
| SmokeRuns.AskedForFirst | src/dev/providerSmoke.ts:2316-2330 | The request is for the run that the first listing to find one running found, and none is made if and only if no listing does |
| SmokeRuns.AskedIsRunning | src/dev/providerSmoke.ts:2316-2330 | So at most one is made, for a run that a turn taken listed still running |
| SmokeRuns.StillRunningIff | src/dev/providerSmoke.ts:2301-2316 | A run is still running while queued, starting, running, waiting or interrupting; recovery required and lost are ends that contain nothing |
| SmokeTarget.StepKeeps | src/dev/providerSmoke.ts:1339-1537 | Every step of the closure, the boundary, the cancellation they share and the task's store keeps the protocol's invariant: while the cancellation is safe a known run is the task's own and a snapshot shows it as it once was |
| SmokeTarget.ExecKeeps | src/dev/providerSmoke.ts:1339-1537 | The same for every interleaving |
| SmokeTarget.SafeMeansOver | src/dev/providerSmoke.ts:1493-1515 | Over every interleaving a target returned as safe has its closure finished, no unsafe or pending cancellation, and judged its task's own run, contained with that status for good; judged without a run its task has none, unless starting it was rejected and neither a cancellation nor a successful listing looked for it |
| SmokeVerdicts.ReturnsIff | src/dev/providerSmoke.ts:1493-1515 | Which steps return a target, and when it is judged safe: if and only if the closure has finished, the cancellation applied, if any, was safe, and the run in the last listing, by the known id or else the task's latest, ended contained, or there is none and no id is known |
| SmokeVerdicts.StepTells | src/dev/providerSmoke.ts:1360-1537 | What each event changes: when the target has timed out or met an interaction, what is known of task and run, which listing counts, when the one cancellation begins and for what, and the closure's way on, each if and only if |
| SmokeVerdicts.OuterOf | src/dev/providerSmoke.ts:1470-1496 | A boundary that cuts the lifecycle short has the target wait for the cancellation, then for the closure, and look at the tasks once more if none was listed |
| SmokeVerdicts.UndisturbedPoll | src/dev/providerSmoke.ts:1440-1512 | From any state, a poll that finds the run contained and without an interaction leads to a safe verdict about that run once evidence is gathered and the boundary settles |
| SmokeVerdicts.UndisturbedReturns | src/dev/providerSmoke.ts:1404-1515 | A target whose run is admitted, started and ends contained is released as safe, with nothing held against it, whatever the run |
| SmokeTarget.ReleasedAtWorkIff | src/dev/providerSmoke.ts:1493-1512 | A step returns a target as safe while its task's run is at work if and only if it is the failure of the final listing, after starting the run was rejected and with no cancellation begun |
| SmokeTarget.ReleasedAtWork | src/dev/providerSmoke.ts:1433-1512 | Such a step is reachable for any run: it is admitted, its start is rejected, the closure settles, and the final listing fails |
| SmokeTarget.OverForGood | src/dev/providerSmoke.ts:1404-1468 | Nothing but its task's store changes under such a target, and it stays over: a run judged contained stays so |
| SmokeTarget.VerdictStands | src/dev/providerSmoke.ts:1512-1515 | A closure still at work after the verdict cannot change it |
| SmokeTarget.AlwaysReturns | src/dev/providerSmoke.ts:1470-1496 | From any point the deadlines alone bring the target to return |
| SmokeScheduler.DiscoveredAre | src/dev/providerSmoke.ts:363-400 | Exactly the visible, selected, not excluded models of startable, selected runtimes are discovered |
| SmokeScheduler.SortMembers | src/dev/providerSmoke.ts:395-399 | Sorting targets only reorders them |
| SmokeScheduler.SortSorted | src/dev/providerSmoke.ts:395-399 | Sorted targets are in the order of their runtimes and models |
| SmokeScheduler.SortedPairs | src/dev/providerSmoke.ts:395-399 | So a target comes before another only if its runtime does, or it is of the same runtime and its model does |
| SmokeScheduler.EnqueueTargets | src/dev/providerSmoke.ts:2126-2144 | Refilling keeps the queue sorted, its ids distinct, equal to the queued set and apart from the completed ones, with eligible their union; it loses nothing, adds only what is discovered, and leaves no model the catalog offers ineligible |
| SmokeScheduler.RunTarget | src/dev/providerSmoke.ts:1339-1537 | Whatever happens a target returns, and it is over if it is safe |
| SmokeScheduler.CompleteTarget | src/dev/providerSmoke.ts:568-611 | A target's result is recorded once. It has passed if and only if the target is safe, its run completed with its evidence in order and its selection attested, nothing timed out, was interrupted or asked for an interaction, and the repository is untouched; unattested if only the attestation is missing; interrupted if it was, but is safe with the repository untouched; failed otherwise. The pass stops if and only if it was interrupted, touched the repository or is not safe |
| SmokeScheduler.Refill | src/dev/providerSmoke.ts:611-622 | Unless the pass has stopped or the read fails, every model that the catalogs read, the new one included, offer for the selection is eligible, and every target queued is one they offer |
| SmokeScheduler.TakeTurn | src/dev/providerSmoke.ts:549-622 | One turn runs the queue's first target, records the verdict that its own events give, by the same conditions, keeps the queue's invariant with every target queued offered by a catalog read, and stops the pass exactly for the turn's own reasons |
| SmokeScheduler.RunQueue | src/dev/providerSmoke.ts:540-623 | The loop ends against any catalogs, within the cap; a target starts only if a catalog read before it offers it for the selection, and only once every earlier one is over, its task's run contained or never seen; each result has its own turn's verdict, and the pass stops if and only if its last turn, the cap or what came before says so |
| SmokeScheduler.Prepare | src/dev/providerSmoke.ts:508-538 | Before the loop the queue holds its invariant, every model that the catalogs read so far offer is eligible, every target queued is one they offer, and the pass has stopped if and only if it was interrupted, no catalog could be read, or reading again one that offers nothing failed |
| SmokeScheduler.WindUp | src/dev/providerSmoke.ts:624-693 | The pass is stopped in the end if and only if it was before, has no results, its read-only qualification failed or was not clean, or shutting down failed |
| SmokeScheduler.RunProviderSmoke | src/dev/providerSmoke.ts:445-734 | Every target started was offered for the selection by a catalog read before it, and each result's verdict is given exactly by its turn's and target's fields. The report is authoritative if and only if nothing stopped it early, its selection is complete and all passed and qualified; what stops it early is listed in full; its selection is incomplete if and only if something asked for was missed, judged by the catalogs read; and in an authoritative report a model ran, exactly once, if and only if one of them offers it for the selection, each task's run completed before the next began |
| SmokeScheduler.IncompleteIff | src/dev/providerSmoke.ts:2219-2258 | Over any catalogs read: the audit finds the selection incomplete if and only if a runtime asked for is listed by none of them or cannot be started as it was listed last, a model asked for is listed by none, or was last listed hidden or of a runtime that cannot be started and did not run, or a model offered for the selection did not run |
| SmokeScheduler.QualifiedUnless | src/dev/providerSmoke.ts:719-726 | Attachments qualify unless a result has none or failed |
| SmokeScheduler.GoesOnWithRunAtWork | src/dev/providerSmoke.ts:549-622 | A turn whose run was admitted though its start was rejected, and whose final listing failed, fails its model and stops nothing, whatever state the run is in |
| SmokeScheduler.GoesOnOverCompletedRun | src/dev/providerSmoke.ts:549-622 | A turn whose run is admitted, starts and completes undisturbed returns safe and stops nothing, and its model passes if its selection was attested, and is unattested otherwise |
| SmokeScheduler.EligibleIffOffered | src/dev/providerSmoke.ts:2126-2144 | Whatever the pass has launched so far, a model is eligible if and only if a catalog read so far offers it for the selection: visible, selected, of a startable and selected runtime |
| SmokeScheduler.AskedNotOffered | src/dev/providerSmoke.ts:2219-2258 | Runtime a and the models m and n asked for, with m offered by runtime b alone: m is not offered for the selection, and the run of n alone is a complete selection |
| GitDiffPaths.GitPath | src/shared/gitDiffPaths.ts:12-26 | The loop over escapes and literals computes the path whose bytes the quoted text gives one after another, itself, by letter or by three octal digits, or the value itself where it is not quoted or gives none |
| GitDiffPaths.UnquotedIff | src/shared/gitDiffPaths.ts:9-26 | A value is read as a path if and only if it is a quoted text that gives the path's bytes, or gives none and is the path itself |
| GitDiffPaths.QuotedPathRoundTrip | src/shared/gitDiffPaths.ts:9-26 | Every path is recovered from every quoting Git may choose for it, byte by byte |
| GitDiffPaths.SidePathRoundTrip | src/shared/gitDiffPaths.ts:28-33 | A side's path is recovered with its prefix, quoted or not, with or without the trailing tab |
| GitDiffPaths.SideNoneIff | src/shared/gitDiffPaths.ts:28-32 | There is no path if and only if the value, without one tab at its end, is /dev/null or a quoted spelling of it |
| GitDiffPaths.UnprefixedSide | src/shared/gitDiffPaths.ts:32-33 | A path without the prefix comes back whole in either spelling |
| GitDiffPaths.FirstSplit | src/shared/gitDiffPaths.ts:47-48 | The header is split at the first space that can part two paths |
| GitDiffPaths.KeptNameRoundTrip | src/shared/gitDiffPaths.ts:35-46 | An unquoted kept name is recovered, whatever it holds |
| GitDiffPaths.OldQuotedRoundTrip | src/shared/gitDiffPaths.ts:47-53 | A quoted old path with any new one is recovered |
| GitDiffPaths.NewQuotedRoundTrip | src/shared/gitDiffPaths.ts:47-53 | An unquoted old path with a quoted new one is recovered if and only if it holds no separator |
| GitDiffPaths.UnquotedRoundTrip | src/shared/gitDiffPaths.ts:40-54 | Two unquoted paths are recovered if and only if they are equal, or the old one holds no separator and the new one does not mirror it |
| GitDiffPaths.OneHeaderForTwo | src/shared/gitDiffPaths.ts:40-54 | Two different renames print one header, so no reader can recover both |
| GitDiffPaths.UnquotedMisread | src/shared/gitDiffPaths.ts:47-54 | The rename of `x b/y` to `z` is read as that of `x` to `y b/z` |
| GitDiffPaths.RenameRoundTrip | src/shared/gitDiffPaths.ts:40-54 | An unquoted rename is recovered where neither path holds a separator |
| GitDiffPaths.HeaderReads | src/shared/gitDiffPaths.ts:35-54 | Whatever a header is read as, it is two texts with a space between them, each quoted or with its prefix, that read as the prefixed names |
| SoftwareUpdate.NormalizeProgress | src/electron/SoftwareUpdateController.ts:213-226 | Any reported progress is shown within its own bounds, and one within them as it is |
| SoftwareUpdate.SoftwareUpdateController.CheckForUpdates | src/electron/SoftwareUpdateController.ts:136-144 | A check begins exactly where none is ruled out by the status or an operation, and the controller stays consistent |
| SoftwareUpdate.SoftwareUpdateController.AfterCheck | src/electron/SoftwareUpdateController.ts:144-157 | A settled check concludes only while the status or the operation is still its own, and the controller stays consistent |
| SoftwareUpdate.SoftwareUpdateController.DownloadUpdate | src/electron/SoftwareUpdateController.ts:160-168 | A download begins exactly where a version is known and nothing else is under way, and the controller stays consistent |
| SoftwareUpdate.SoftwareUpdateController.AfterDownload | src/electron/SoftwareUpdateController.ts:168-176 | A settled download concludes only while the status or the operation is still its own, and the controller stays consistent |
| SoftwareUpdate.SoftwareUpdateController.OnCheckingForUpdate | src/electron/SoftwareUpdateController.ts:57-59 | The event shows a check and changes no operation; a consistent controller stays so if and only if a check is in operation |
| SoftwareUpdate.SoftwareUpdateController.OnDownloadProgress | src/electron/SoftwareUpdateController.ts:85-91 | The event shows a download and its progress and changes no operation; a consistent controller stays so if and only if a download is in operation |
| SoftwareUpdate.StepConsistent | src/electron/SoftwareUpdateController.ts:57-177 | From a consistent state a step is consistent if and only if checking events come during a check and progress during a download |
| SoftwareUpdate.RunConsistent | src/electron/SoftwareUpdateController.ts:57-177 | Over every such run the operation is a check exactly while checking and a download exactly while downloading, and has an unsettled call of its kind |
| SoftwareUpdate.NeverStuck | src/electron/SoftwareUpdateController.ts:136-177 | In every run of timely events, in whatever order calls settle and whatever comes in between: with none left out no operation is left, and a check or the download of a known update begins when called |
| SoftwareUpdate.StuckWhenUntimely | src/electron/SoftwareUpdateController.ts:85-157 | Progress announced during a check leaves the check in operation with no call out, so that no check or download begins again |
| SoftwareUpdate.LateSettling | src/electron/SoftwareUpdateController.ts:143-176 | A call that settles after its operation has ended changes nothing |
| SoftwareUpdate.StatusTells | src/electron/SoftwareUpdateController.ts:57-177 | From any state, which status every call, settling and updater event shows |
| SoftwareUpdate.VersionTells | src/electron/SoftwareUpdateController.ts:60-176 | The version is the one last found or downloaded and none once there is no update, and the time that of the last answer |
| SoftwareUpdate.ErrorTells | src/electron/SoftwareUpdateController.ts:57-189 | Which events show which error, and which clear it or the progress |
| SoftwareUpdate.OperationTells | src/electron/SoftwareUpdateController.ts:57-177 | An operation begins exactly where the updater is asked, and ends exactly once its outcome is known; a disposed controller hears nothing more and its timer is gone |
| SoftwareUpdate.FoundAndDownloaded | src/electron/SoftwareUpdateController.ts:136-177 | A check that finds a version and a download of it end with that version ready to install and the time it was found, though the check settled in between |
| SoftwareUpdate.AlwaysShownWell | src/electron/SoftwareUpdateController.ts:57-177 | In every run, timely or not: an error is shown exactly with its message, progress only of a download, and an offer with its version |
| SoftwareUpdate.DownloadedBehind | src/electron/SoftwareUpdateController.ts:92-104 | An update is ready to install only after the updater, or a download that resolved while shown, said so |
| DevLifecycle.DevServer.Start | src/dev/devProcessLifecycle.ts:10-19 | Startup begins once, and not after shutdown has; every resource stays in one pair of hands or released once |
| DevLifecycle.DevServer.AfterOpen | src/dev/server.ts:53-109 | Persistence and service are assigned, persistence alone where building the service throws; every resource stays in one pair of hands or released once |
| DevLifecycle.DevServer.AfterLease | src/dev/server.ts:122-126 | The lease is assigned, and its token only if shutdown has not begun; every resource stays in one pair of hands or released once |
| DevLifecycle.DevServer.Stop | src/dev/devProcessLifecycle.ts:21-30 | The first stop begins the first cleanup pass; later ones join it; every resource stays in one pair of hands or released once |
| DevLifecycle.DevServer.BeginCleanup | src/dev/server.ts:142-158 | A pass takes over all that is assigned, clears it, and begins releasing service and lease |
| DevLifecycle.DevServer.ContinueCleanup | src/dev/server.ts:158-170 | Each further await of a pass releases what is its turn, whatever failed before; every resource stays in one pair of hands or released once |
| DevLifecycle.DevServer.AfterStartup | src/dev/devProcessLifecycle.ts:35-38 | Once startup has ended the second pass begins; every resource stays in one pair of hands or released once |
| DevLifecycle.DevServer.StoppedReleasedAll | src/dev/devProcessLifecycle.ts:21-44 | A server whose stop has settled has released each resource it ever acquired exactly once, and holds none |
| DevLifecycle.StepKeeps | src/dev/server.ts:52-170 | Every step keeps each resource in exactly one pair of hands or released once, and no token once stopping |
| DevLifecycle.SettledReleasesAll | src/dev/devProcessLifecycle.ts:21-44 | For every interleaving, when stop settles each resource ever acquired has been released exactly once and nothing is left assigned |
| DevLifecycle.SettledForGood | src/dev/devProcessLifecycle.ts:10-44 | After that nothing changes any more |
| DevLifecycle.NoTokenOnceStopping | src/dev/server.ts:109-126 | From the first stop on there is no token, and none is ever set again |
| DevLifecycle.PersistenceClosesLast | src/dev/server.ts:153-165 | A pass closes persistence only after its service has shut down |
| DevLifecycle.StartupFailedIff | src/dev/server.ts:52-126 | Over every run startup fails if and only if one of its own awaits rejected or its service could not be built |
| DevLifecycle.StartupGoesOn | src/dev/server.ts:52-126 | With none rejected it goes on from await to await, and a shutdown ends it at the next |
| DevLifecycle.StartedHoldsAll | src/dev/server.ts:53-126 | Over every run a server that has started and is not stopping holds persistence, service, server and token lease, and its token is the lease's; before that it has none |
| DevLifecycle.UndisturbedStartup | src/dev/server.ts:52-126 | A startup with nothing rejected and no shutdown ends with everything assigned and the lease's token set |
| DevLifecycle.SettledFailedIff | src/dev/devProcessLifecycle.ts:27-44 | Over every run a settled stop has failed if and only if an await of either cleanup pass was rejected |
| DevLifecycle.StopSettles | src/dev/devProcessLifecycle.ts:21-44 | From any state of a stop, once startup has ended, the awaits that are left settle it, in a bounded number of steps |
| DevLifecycle.CleanupReleases | src/dev/server.ts:159-165 | A pass releases the server as it closes it and persistence once its service has shut down, and nothing else after its start |
| AgentReviewFindings.EffectiveReviewFindings | src/shared/agentReviewFindings.ts:208-221 | The nested loops over the array apply every decision in order to every finding that carries its id |
| AgentReviewFindings.FieldsKept | src/shared/agentReviewFindings.ts:201-221 | Number, order and every field of the review's findings stay |
| AgentReviewFindings.DismissedByLast | src/shared/agentReviewFindings.ts:314-329 | A finding is dismissed if and only if the last decision on its id dismisses it |
| AgentReviewFindings.DismissalKept | src/shared/agentReviewFindings.ts:314-329 | Its dismissal is that of the first one after the last restore: that decision's reason, time and note, an empty note left out |
| AgentReviewFindings.OpenSinceRestore | src/shared/agentReviewFindings.ts:314-329 | A finding is open only if every dismissal of it was restored later |
| AgentReviewFindings.DecidedAllAppends | src/shared/agentReviewFindings.ts:213-219 | Decisions apply one list after another as in one |
| AgentReviewFindings.SwapDecisions | src/shared/agentReviewFindings.ts:208-221 | Swapping adjacent decisions on different ids changes nothing |
| AgentReviewFindings.OpenBlockingShows | src/shared/agentReviewFindings.ts:247-250 | An open blocking finding remains if and only if a BLOCKER or MAJOR one's last decision does not dismiss it |
| AgentReviewFindings.GateStatusRule | src/shared/agentReviewFindings.ts:277-301 | A finished gate with a result asks for changes if and only if a blocking finding is open or its verdict does without findings; it is inconclusive if and only if its verdict is and none is open; it passed otherwise |
| AgentReviewFindings.GateStatusStays | src/shared/agentReviewFindings.ts:282-295 | No gate reads as not run; one that is not finished, or recorded no result, keeps its status |
| AgentReviewFindings.OneMoreDecision | src/shared/agentReviewFindings.ts:277-301 | One more dismissal never starts asking for changes and one more restore never stops |
| AgentReviewFindings.AcceptedRequestItems | src/shared/agentReviewFindings.ts:171-183 | The loop collects what the decisions on the request leave accepted |
| AgentReviewFindings.AcceptedByLast | src/shared/agentReviewFindings.ts:171-183 | An item is accepted if and only if the last decision on it for the request accepts it |
| AgentReviewFindings.AwaitsUntilAccepted | src/shared/agentReviewFindings.ts:185-192 | An answer waits if and only if the last decision on one of its items is not an acceptance |
| CheckLog.LastDrawShown | src/shared/pullRequestActions.ts:225-226 | What is kept of a redrawn line is its last draw: it has no carriage return, starts after one or at the line's start, and ends with the line or before the carriage return that ends it, never empty elsewhere |
| CheckLogLines.LastDrawIs | src/shared/pullRequestActions.ts:225-226 | Text without a carriage return is shown whole, after whatever was drawn before it, with or without a carriage return at its end |
| CheckLogLines.StampTaken | src/shared/pullRequestActions.ts:206-227 | The timestamp a line begins with goes, with one space after it |
| CheckLogLines.NoStamp | src/shared/pullRequestActions.ts:206-227 | A line that begins with none loses nothing |
| CheckLogLines.CommandShown | src/shared/pullRequestActions.ts:249-264 | Each workflow command is shown in its own words, only an error as one, and two of them not at all |
| CheckLogLines.OtherShown | src/shared/pullRequestActions.ts:250-252 | Any other line is shown as it is |
| CheckLogLines.ControlsHidden | src/shared/pullRequestActions.ts:207 | The control characters hidden are all but the tab and the line ends |
| CheckLog.JoinSplit | src/shared/pullRequestActions.ts:224-237 | Splitting a log into lines and joining them gives it back |
| CheckLog.EndOfLog | src/shared/pullRequestActions.ts:229-234 | The loops keep the lines up to the last error mark, without blank ones at the end |
| CheckLog.KeptUpToError | src/shared/pullRequestActions.ts:229-234 | With an error mark exactly the lines up to the last one are kept, without one all but blank lines at the end |
| CheckLog.KeptLinesLack | src/shared/pullRequestActions.ts:221-228 | No kept line holds a carriage return or a line feed |
| CheckLog.BoundCheckLog | src/shared/pullRequestActions.ts:216-244 | The text is the last whole lines and characters of the kept lines, redacted before the last cut, and it is marked exactly when a cut was made |
| CheckLog.CutToChars | src/shared/pullRequestActions.ts:238-242 | A too long text is cut to its end after the first line feed of its last characters, or to all of them where they hold none |
| CheckLog.WithinBounds | src/shared/pullRequestActions.ts:131-136 | With nothing redacted the text is within both limits, has no carriage return, and is an end of the kept lines |
| CheckLog.StartsAtLine | src/shared/pullRequestActions.ts:238-242 | It starts at a line's start, or is the end of one line longer than the limit |
| CheckLog.TruncatedWhenLeftOut | src/shared/pullRequestActions.ts:216-244 | It is not marked truncated if and only if the whole log was read and the text is all of the kept lines |
| CheckLog.BoundUnredacted | src/shared/pullRequestActions.ts:209-244 | For the whole function, from the raw log: both limits, no carriage return, an end of the kept lines that starts at a line or in one over-long line, and marked truncated if and only if the start was not read or a kept line is left out |
| CheckLogLines.PlainShown | src/shared/pullRequestActions.ts:216-244 | A log of plain lines, each ended by a line feed with or without a carriage return, is shown as exactly those lines where they are within the limits |
| CheckLogLines.ErrorKept | src/shared/pullRequestActions.ts:229-234 | With errors in it exactly the lines up to the last one are kept, that one in the viewer's words |
| CheckLogLines.RawTailIs | src/shared/pullRequestActions.ts:217-220 | Of a long log what is read starts after the first line feed of its last million characters, or is all of them where they hold none |
| CheckLogLines.LastLinesAre | src/shared/pullRequestActions.ts:235-237 | The lines shown are the last ones, as many as the limit allows |
| CheckLogTail.EndShowsSameIff | src/shared/pullRequestActions.ts:217-247 | A log read from a line's start and cleaned line by line shows the same lines as the whole log would if and only if the end read holds an error mark or the head holds none, and the later cuts fall in the end or the head has nothing to show |
| CheckLogTail.ErrorNeverRead | src/shared/pullRequestActions.ts:217-247 | An error line before a million line feeds: the whole log keeps it, and the end that is read keeps nothing |
| CheckLogTail.ErrorLine | src/shared/pullRequestActions.ts:249-258 | Any short plain line that begins with the error command is such an error line |

## Left out

- Electron's sessions, views, windows and permissions: a call into them only succeeds or fails; a route whose view cannot be made leaves the network open and no view, one whose origins cannot be parsed fails as one whose proxy is refused, and a view's listeners are always set.
- Allowed origins, URL parsing, request and navigation filters: they guard single requests and hold no state beyond the mode.
- The awaits in which an activation closes a route's network lease before it rethrows, and the leases closed without awaiting them: their outcome changes no field of the host.
- The order of microtasks: any call in flight may go on next, so every order the runtime has is covered.
- The service-worker polling in `clearOrigin`: one origin is one await that succeeds or fails.
- `shutdown`'s last `sessions.clear()`: `src/electron/main.ts:1043-1046` refuses later calls, and detach and close are modelled on their own.
- Whether an external link's URL is safe: a link that reaches the pending ones is, as they are checked before.
- Random ids: tokens, views, links and calls are numbers that never repeat.
- SmokeTarget.StepKeeps: `runTarget`'s captured variables are fields of a value, not mutable variables, because its closure and its own flow change them in turn.
- What a target's listing may miss: it shows the task's one run as it was at some moment, not before it was asked for if it is the final one; a target starts a single run, so its task has no other.
- CheckLogTail.EndShowsSameIff: says nothing of a log whose last million characters are one line, nor of terminal sequences that span lines.
- The smoke pass's attachments, prompts, worktree evidence, read-only qualification, console output and error texts: they enter as the verdicts and outcomes they produce.
- The `activeRunId` that a signal cancels: it sends requests of its own and decides nothing.
- The locale's order of names: any ranking of names.
- Text as UTF-16: `GitDiffPaths` works on the bytes Git writes, so decoding them is not part of it.
- Terminal sequences, section markers and invisible characters in a log: any string function and any set of characters.
- The rest of `src/shared/pullRequestActions.ts`: classifications without state.
- Rounding of floating-point numbers: bounds and progress are real numbers.
- The updater's settings, published states and `installUpdate`: they add no state.
- The HTTP listener of `src/dev/server.ts` while its port is being taken: what becomes of a pending `listen` is the runtime's.
- Review texts, stale reviews and the service that rejects decisions that do not apply.
