/**
 * Decisions on a review's findings. The findings never change; each view of one is the
 * fold of the decisions on its id, in order, and the gate status is derived from those
 * still open.
 */
module AgentReviewFindings {
  import opened Wrappers

  datatype Severity = Blocker | Major | Minor | Nit
  datatype Verdict = VerdictPassed | VerdictNeedsChanges | VerdictInconclusive
  datatype GateStatus = NotRun | Running | Passed | NeedsChanges | Inconclusive | Failed | Canceled | Stale

  datatype Finding = Finding(
    id: string, severity: Severity, title: string, explanation: string, path: Option<string>,
    line: Option<int>, endLine: Option<int>, recommendation: Option<string>, previousFindingId: Option<string>)

  datatype ReviewResult = ReviewResult(verdict: Verdict, findings: seq<Finding>)

  datatype DismissReason = NotAProblem | Accepted | Deferred

  datatype Decision =
    | Dismiss(findingId: string, createdAt: string, reason: DismissReason, note: Option<string>)
    | Restore(findingId: string, createdAt: string)

  datatype Dismissal = Dismissal(reason: DismissReason, note: Option<string>, decidedAt: string)
  datatype FindingState = Open | Dismissed
  datatype EffectiveFinding = EffectiveFinding(finding: Finding, state: FindingState, dismissal: Option<Dismissal>)

  datatype Gate = Gate(status: GateStatus, result: Option<ReviewResult>, decisions: seq<Decision>)

  // ----- Applying decisions -----

  /** An empty note is left out. */
  function DismissalFrom(decision: Decision): Dismissal
    requires decision.Dismiss?
  {
    Dismissal(decision.reason, if decision.note == Some("") then None else decision.note, decision.createdAt)
  }

  /** None when the decision does not apply to the finding's state. */
  function ApplyDecision(finding: EffectiveFinding, decision: Decision): Option<EffectiveFinding> {
    if decision.Dismiss? then
      if finding.state != Open then None
      else Some(finding.(state := Dismissed, dismissal := Some(DismissalFrom(decision))))
    else
      if finding.state != Dismissed then None
      else Some(finding.(state := Open, dismissal := None))
  }

  function Decided(finding: EffectiveFinding, decision: Decision): EffectiveFinding {
    if finding.finding.id != decision.findingId then finding
    else
      var applied := ApplyDecision(finding, decision);
      if applied.Some? then applied.value else finding
  }

  function DecidedAll(finding: EffectiveFinding, decisions: seq<Decision>): EffectiveFinding {
    if decisions == [] then finding
    else Decided(DecidedAll(finding, decisions[..|decisions| - 1]), decisions[|decisions| - 1])
  }

  function Opened(finding: Finding): EffectiveFinding {
    EffectiveFinding(finding, Open, None)
  }

  function Findings(result: Option<ReviewResult>): seq<Finding> {
    if result.Some? then result.value.findings else []
  }

  /** What `EffectiveReviewFindings` computes, on values. */
  function Effective(result: Option<ReviewResult>, decisions: seq<Decision>): (effective: seq<EffectiveFinding>)
    ensures |effective| == |Findings(result)|
  {
    var findings := Findings(result);
    seq(|findings|, i requires 0 <= i < |findings| => DecidedAll(Opened(findings[i]), decisions))
  }

  method EffectiveReviewFindings(result: Option<ReviewResult>, decisions: seq<Decision>)
    returns (effective: seq<EffectiveFinding>)
    ensures effective == Effective(result, decisions)
  {
    var base := Findings(result);
    var findings := new EffectiveFinding[|base|](i requires 0 <= i < |base| => Opened(base[i]));
    for d := 0 to |decisions|
      invariant forall i :: 0 <= i < |base| ==> findings[i] == DecidedAll(Opened(base[i]), decisions[..d])
    {
      assert decisions[..d + 1][..d] == decisions[..d];
      for index := 0 to findings.Length
        invariant forall i :: 0 <= i < |base| ==>
          findings[i] == DecidedAll(Opened(base[i]), if i < index then decisions[..d + 1] else decisions[..d])
      {
        var finding := findings[index];
        OwnFinding(Opened(base[index]), decisions[..d]);
        if finding.finding.id == decisions[d].findingId {
          var applied := ApplyDecision(finding, decisions[d]);
          if applied.Some? {
            findings[index] := applied.value;
          }
        }
      }
    }
    assert decisions[..|decisions|] == decisions;
    effective := findings[..];
  }

  // ----- What the decisions mean -----

  predicate On(decisions: seq<Decision>, k: int, id: string) {
    0 <= k < |decisions| && decisions[k].findingId == id
  }

  /** The last decision on `id` dismisses it. */
  ghost predicate LastDismisses(decisions: seq<Decision>, id: string) {
    exists k :: On(decisions, k, id) && decisions[k].Dismiss? && forall j :: k < j ==> !On(decisions, j, id)
  }

  /** `k` is the first DISMISS on `id` after its last RESTORE. */
  ghost predicate DismissedAt(decisions: seq<Decision>, id: string, k: int) {
    On(decisions, k, id) && decisions[k].Dismiss? &&
    (forall j :: k < j && On(decisions, j, id) ==> decisions[j].Dismiss?) &&
    (forall j :: j < k && On(decisions, j, id) && decisions[j].Dismiss? ==>
      exists m :: j < m < k && On(decisions, m, id) && decisions[m].Restore?)
  }

  /** Deciding never changes a field of the review's own finding. */
  lemma {:induction false} OwnFinding(finding: EffectiveFinding, decisions: seq<Decision>)
    ensures DecidedAll(finding, decisions).finding == finding.finding
    decreases |decisions|
  {
    if decisions != [] {
      OwnFinding(finding, decisions[..|decisions| - 1]);
    }
  }

  /** Length, order and every review field are kept. */
  lemma FieldsKept(result: Option<ReviewResult>, decisions: seq<Decision>)
    ensures |Effective(result, decisions)| == |Findings(result)|
    ensures forall i :: 0 <= i < |Findings(result)| ==> Effective(result, decisions)[i].finding == Findings(result)[i]
  {
    forall i | 0 <= i < |Findings(result)| ensures Effective(result, decisions)[i].finding == Findings(result)[i] {
      OwnFinding(Opened(Findings(result)[i]), decisions);
    }
  }

  /** A finding is dismissed exactly when the last decision on its id is a DISMISS. */
  lemma {:induction false} DismissedByLast(finding: Finding, decisions: seq<Decision>)
    ensures DecidedAll(Opened(finding), decisions).state == Dismissed <==> LastDismisses(decisions, finding.id)
    decreases |decisions|
  {
    if decisions != [] {
      var n := |decisions| - 1;
      var before := decisions[..n];
      DismissedByLast(finding, before);
      OwnFinding(Opened(finding), before);
      if decisions[n].findingId == finding.id {
        assert On(decisions, n, finding.id);
      } else {
        LastBefore(decisions, finding.id);
      }
    }
  }

  lemma LastBefore(decisions: seq<Decision>, id: string)
    requires decisions != [] && decisions[|decisions| - 1].findingId != id
    ensures LastDismisses(decisions, id) <==> LastDismisses(decisions[..|decisions| - 1], id)
  {
    var before := decisions[..|decisions| - 1];
    assert forall k :: On(decisions, k, id) <==> On(before, k, id);
    assert forall k :: On(before, k, id) ==> before[k] == decisions[k];
    if LastDismisses(before, id) {
      var k :| On(before, k, id) && before[k].Dismiss? && forall j :: k < j ==> !On(before, j, id);
      assert On(decisions, k, id);
    }
  }

  /** The dismissal says what the decision says: its reason, its note unless that is empty, and when it was made. */
  predicate Says(dismissal: Option<Dismissal>, decision: Decision) {
    && decision.Dismiss? && dismissal.Some? && dismissal.value.reason == decision.reason
    && dismissal.value.decidedAt == decision.createdAt
    && (if decision.note.Some? && decision.note.value != "" then dismissal.value.note == decision.note
        else dismissal.value.note.None?)
  }

  /** A dismissed finding carries the first DISMISS after its last RESTORE, and an open one carries none. */
  lemma {:induction false} DismissalKept(finding: Finding, decisions: seq<Decision>) returns (k: int)
    ensures var now := DecidedAll(Opened(finding), decisions);
            if now.state == Dismissed then
              DismissedAt(decisions, finding.id, k) && Says(now.dismissal, decisions[k])
            else now.dismissal == None
    decreases |decisions|
  {
    k := 0;
    if decisions != [] {
      var n := |decisions| - 1;
      var before := decisions[..n];
      k := DismissalKept(finding, before);
      OwnFinding(Opened(finding), before);
      assert forall j :: On(before, j, finding.id) <==> j != n && On(decisions, j, finding.id);
      if On(decisions, n, finding.id) && decisions[n].Dismiss? {
        if DecidedAll(Opened(finding), before).state == Open {
          OpenSinceRestore(finding, before);
          k := n;
          forall j | j < n && On(decisions, j, finding.id) && decisions[j].Dismiss?
            ensures exists m :: j < m < n && On(decisions, m, finding.id) && decisions[m].Restore?
          {
            assert On(before, j, finding.id);
            var m :| j < m < n && On(before, m, finding.id) && before[m].Restore?;
            assert On(decisions, m, finding.id);
          }
        } else {
          StillDismissedAt(decisions, finding.id, k);
        }
      } else if DecidedAll(Opened(finding), decisions).state == Dismissed {
        StillDismissedAt(decisions, finding.id, k);
      }
    }
  }

  lemma StillDismissedAt(decisions: seq<Decision>, id: string, k: int)
    requires decisions != [] && DismissedAt(decisions[..|decisions| - 1], id, k)
    requires On(decisions, |decisions| - 1, id) ==> decisions[|decisions| - 1].Dismiss?
    ensures DismissedAt(decisions, id, k)
  {
    var before := decisions[..|decisions| - 1];
    assert forall j :: On(before, j, id) ==> On(decisions, j, id) && before[j] == decisions[j];
    forall j | j < k && On(decisions, j, id) && decisions[j].Dismiss?
      ensures exists m :: j < m < k && On(decisions, m, id) && decisions[m].Restore?
    {
      assert On(before, j, id);
      var m :| j < m < k && On(before, m, id) && before[m].Restore?;
      assert On(decisions, m, id);
    }
    forall j | k < j && On(decisions, j, id) ensures decisions[j].Dismiss? {
      if j < |before| { assert On(before, j, id); }
    }
  }

  /** While a finding is open, a RESTORE follows every DISMISS on it. */
  lemma {:induction false} OpenSinceRestore(finding: Finding, decisions: seq<Decision>)
    requires DecidedAll(Opened(finding), decisions).state == Open
    ensures forall j :: On(decisions, j, finding.id) && decisions[j].Dismiss? ==>
              exists m :: j < m && On(decisions, m, finding.id) && decisions[m].Restore?
    decreases |decisions|
  {
    if decisions != [] {
      var n := |decisions| - 1;
      var before := decisions[..n];
      OwnFinding(Opened(finding), before);
      forall j | On(decisions, j, finding.id) && decisions[j].Dismiss?
        ensures exists m :: j < m && On(decisions, m, finding.id) && decisions[m].Restore?
      {
        if On(decisions, n, finding.id) && decisions[n].Restore? {
          assert j < n;
        } else {
          OpenSinceRestore(finding, before);
          assert On(before, j, finding.id);
          var m :| j < m && On(before, m, finding.id) && before[m].Restore?;
          assert On(decisions, m, finding.id);
        }
      }
    }
  }

  // ----- Order of decisions -----

  lemma {:induction false} DecidedAllAppends(finding: EffectiveFinding, first: seq<Decision>, second: seq<Decision>)
    ensures DecidedAll(finding, first + second) == DecidedAll(DecidedAll(finding, first), second)
    decreases |second|
  {
    if second == [] {
      assert first + second == first;
    } else {
      var n := |second| - 1;
      assert (first + second)[..|first + second| - 1] == first + second[..n];
      DecidedAllAppends(finding, first, second[..n]);
    }
  }

  lemma {:induction false} SwapPair(finding: EffectiveFinding, x: Decision, y: Decision)
    requires x.findingId != y.findingId
    ensures DecidedAll(finding, [x, y]) == DecidedAll(finding, [y, x])
  {
    assert [x, y][..1] == [x] && [y, x][..1] == [y];
    assert [x][..0] == [] && [y][..0] == [];
    assert DecidedAll(finding, [x]) == Decided(finding, x) && DecidedAll(finding, [y]) == Decided(finding, y);
  }

  /** Neighbouring decisions on different findings commute, wherever they stand. */
  lemma SwapDecisions(result: Option<ReviewResult>, before: seq<Decision>, x: Decision, y: Decision,
                      after: seq<Decision>)
    requires x.findingId != y.findingId
    ensures Effective(result, before + [x, y] + after) == Effective(result, before + [y, x] + after)
  {
    forall i | 0 <= i < |Findings(result)|
      ensures Effective(result, before + [x, y] + after)[i] == Effective(result, before + [y, x] + after)[i]
    {
      var finding := Opened(Findings(result)[i]);
      DecidedAllAppends(finding, before + [x, y], after);
      DecidedAllAppends(finding, before + [y, x], after);
      DecidedAllAppends(finding, before, [x, y]);
      DecidedAllAppends(finding, before, [y, x]);
      SwapPair(DecidedAll(finding, before), x, y);
    }
  }

  // ----- The gate -----

  predicate IsBlocking(severity: Severity) {
    severity == Blocker || severity == Major
  }

  predicate SomeBlocking(findings: seq<EffectiveFinding>) {
    exists i :: 0 <= i < |findings| && IsBlocking(findings[i].finding.severity)
  }

  function OnlyOpen(findings: seq<EffectiveFinding>): seq<EffectiveFinding> {
    if findings == [] then []
    else (if findings[0].state == Open then [findings[0]] else []) + OnlyOpen(findings[1..])
  }

  function ReviewGateStatusFor(verdict: Verdict, findings: seq<EffectiveFinding>): GateStatus {
    if verdict == VerdictNeedsChanges || SomeBlocking(findings) then NeedsChanges
    else if verdict == VerdictPassed then Passed
    else Inconclusive
  }

  predicate IsFinished(status: GateStatus) {
    status == Passed || status == NeedsChanges || status == Inconclusive
  }

  function GateVerdict(gate: Gate): Verdict
    requires IsFinished(gate.status)
  {
    if gate.result.Some? then gate.result.value.verdict
    else match gate.status
      case Passed => VerdictPassed
      case NeedsChanges => VerdictNeedsChanges
      case _ => VerdictInconclusive
  }

  function EffectiveReviewGateStatus(gate: Option<Gate>): GateStatus {
    if gate.None? then NotRun
    else if !IsFinished(gate.value.status) then gate.value.status
    else
      var findings := Effective(gate.value.result, gate.value.decisions);
      var open := OnlyOpen(findings);
      var verdict := GateVerdict(gate.value);
      if verdict == VerdictNeedsChanges && |findings| > 0 then
        if SomeBlocking(open) then NeedsChanges else Passed
      else ReviewGateStatusFor(verdict, open)
  }

  /** A BLOCKER or MAJOR finding whose last decision does not dismiss it. */
  ghost predicate OpenBlocking(result: Option<ReviewResult>, decisions: seq<Decision>) {
    exists i :: 0 <= i < |Findings(result)| &&
                Findings(result)[i].severity in {Blocker, Major} && !LastDismisses(decisions, Findings(result)[i].id)
  }

  lemma {:induction false} OnlyOpenBlocks(findings: seq<EffectiveFinding>)
    ensures SomeBlocking(OnlyOpen(findings)) <==>
            exists i :: 0 <= i < |findings| && findings[i].state == Open && IsBlocking(findings[i].finding.severity)
    decreases |findings|
  {
    if findings != [] {
      var rest := findings[1..];
      OnlyOpenBlocks(rest);
      var head := if findings[0].state == Open then [findings[0]] else [];
      var open := head + OnlyOpen(rest);
      assert forall i :: 0 <= i < |OnlyOpen(rest)| ==> open[|head| + i] == OnlyOpen(rest)[i];
      assert forall i :: |head| <= i < |open| ==> open[i] == OnlyOpen(rest)[i - |head|];
      assert forall i :: 0 <= i < |rest| ==> findings[i + 1] == rest[i];
      if findings[0].state == Open && IsBlocking(findings[0].finding.severity) {
        assert open[0] == findings[0];
      } else {
        assert SomeBlocking(open) <==> SomeBlocking(OnlyOpen(rest));
      }
    }
  }

  lemma OpenBlockingShows(result: Option<ReviewResult>, decisions: seq<Decision>)
    ensures SomeBlocking(OnlyOpen(Effective(result, decisions))) <==> OpenBlocking(result, decisions)
  {
    OnlyOpenBlocks(Effective(result, decisions));
    forall i | 0 <= i < |Findings(result)|
      ensures Effective(result, decisions)[i].finding == Findings(result)[i]
      ensures Effective(result, decisions)[i].state == Open <==> !LastDismisses(decisions, Findings(result)[i].id)
    {
      OwnFinding(Opened(Findings(result)[i]), decisions);
      DismissedByLast(Findings(result)[i], decisions);
    }
  }

  /** The status of a finished review, from its verdict and the last decision on each finding. */
  lemma GateStatusRule(gate: Gate)
    requires gate.status in {Passed, NeedsChanges, Inconclusive} && gate.result.Some?
    ensures var status, result := EffectiveReviewGateStatus(Some(gate)), gate.result.value;
            var blocking := OpenBlocking(gate.result, gate.decisions);
            && (status == NeedsChanges <==>
                  blocking || (result.verdict == VerdictNeedsChanges && result.findings == []))
            && (status == Inconclusive <==> result.verdict == VerdictInconclusive && !blocking)
            && status in {Passed, NeedsChanges, Inconclusive}
  {
    OpenBlockingShows(gate.result, gate.decisions);
  }

  /** Without a review, with one that is not finished, and with one that recorded no result, the status is as it is. */
  lemma GateStatusStays(gate: Option<Gate>)
    ensures gate.None? ==> EffectiveReviewGateStatus(gate) == NotRun
    ensures gate.Some? && gate.value.status in {NotRun, Running, Failed, Canceled, Stale} ==>
              EffectiveReviewGateStatus(gate) == gate.value.status
    ensures gate.Some? && gate.value.result.None? ==> EffectiveReviewGateStatus(gate) == gate.value.status
  {
  }

  /** One more DISMISS never brings a review to asking for changes; one more RESTORE never takes it from there. */
  lemma OneMoreDecision(gate: Gate, decision: Decision)
    requires IsFinished(gate.status)
    ensures var was, now := EffectiveReviewGateStatus(Some(gate)),
                            EffectiveReviewGateStatus(Some(gate.(decisions := gate.decisions + [decision])));
            && (decision.Dismiss? && now == NeedsChanges ==> was == NeedsChanges)
            && (decision.Restore? && was == NeedsChanges ==> now == NeedsChanges)
  {
    var more := gate.decisions + [decision];
    var n := |gate.decisions|;
    if gate.result.Some? {
      GateStatusRule(gate);
      GateStatusRule(gate.(decisions := more));
    } else {
      GateStatusStays(Some(gate));
      GateStatusStays(Some(gate.(decisions := more)));
    }
    assert more[..|more| - 1] == gate.decisions;
    forall i | 0 <= i < |Findings(gate.result)|
      ensures var id := Findings(gate.result)[i].id;
              && (decision.Dismiss? && LastDismisses(gate.decisions, id) ==> LastDismisses(more, id))
              && (decision.Restore? && LastDismisses(more, id) ==> LastDismisses(gate.decisions, id))
    {
      var id := Findings(gate.result)[i].id;
      if decision.findingId == id {
        assert On(more, n, id);
      } else {
        LastBefore(more, id);
      }
    }
  }

  // ----- Answers to a request -----

  datatype ItemDecision = ItemDecision(instructionId: string, item: int, accept: bool)

  /** What `AcceptedRequestItems` computes, on values. */
  function AcceptedItems(decisions: seq<ItemDecision>, instructionId: string): set<int> {
    if decisions == [] then {}
    else
      var earlier, last := AcceptedItems(decisions[..|decisions| - 1], instructionId), decisions[|decisions| - 1];
      if last.instructionId != instructionId then earlier
      else if last.accept then earlier + {last.item}
      else earlier - {last.item}
  }

  method AcceptedRequestItems(decisions: seq<ItemDecision>, instructionId: string) returns (accepted: set<int>)
    ensures accepted == AcceptedItems(decisions, instructionId)
  {
    accepted := {};
    for d := 0 to |decisions|
      invariant accepted == AcceptedItems(decisions[..d], instructionId)
    {
      assert decisions[..d + 1][..d] == decisions[..d];
      var decision := decisions[d];
      if decision.instructionId != instructionId { continue; }
      if decision.accept {
        accepted := accepted + {decision.item};
      } else {
        accepted := accepted - {decision.item};
      }
    }
    assert decisions[..|decisions|] == decisions;
  }

  predicate OnItem(decisions: seq<ItemDecision>, k: int, instructionId: string, item: int) {
    0 <= k < |decisions| && decisions[k].instructionId == instructionId && decisions[k].item == item
  }

  /** The last decision on the item of that request accepts it. */
  ghost predicate LastAccepts(decisions: seq<ItemDecision>, instructionId: string, item: int) {
    exists k :: OnItem(decisions, k, instructionId, item) && decisions[k].accept &&
                forall j :: k < j ==> !OnItem(decisions, j, instructionId, item)
  }

  lemma {:induction false} AcceptedByLast(decisions: seq<ItemDecision>, instructionId: string, item: int)
    ensures item in AcceptedItems(decisions, instructionId) <==> LastAccepts(decisions, instructionId, item)
    decreases |decisions|
  {
    if decisions != [] {
      var n := |decisions| - 1;
      var before := decisions[..n];
      AcceptedByLast(before, instructionId, item);
      if OnItem(decisions, n, instructionId, item) {
      } else {
        assert forall k :: OnItem(decisions, k, instructionId, item) <==> OnItem(before, k, instructionId, item);
        assert forall k :: OnItem(before, k, instructionId, item) ==> before[k] == decisions[k];
        if LastAccepts(before, instructionId, item) {
          var k :| OnItem(before, k, instructionId, item) && before[k].accept &&
                   forall j :: k < j ==> !OnItem(before, j, instructionId, item);
          assert OnItem(decisions, k, instructionId, item);
        }
      }
    }
  }

  predicate AwaitsDecision(instructionId: string, decisionItems: seq<int>, decisions: seq<ItemDecision>) {
    exists i :: 0 <= i < |decisionItems| && decisionItems[i] !in AcceptedItems(decisions, instructionId)
  }

  /** An answer waits exactly while the last decision on one of its items is not an acceptance. */
  lemma AwaitsUntilAccepted(instructionId: string, decisionItems: seq<int>, decisions: seq<ItemDecision>)
    ensures AwaitsDecision(instructionId, decisionItems, decisions) <==>
            exists i :: 0 <= i < |decisionItems| && !LastAccepts(decisions, instructionId, decisionItems[i])
  {
    forall i | 0 <= i < |decisionItems|
      ensures decisionItems[i] in AcceptedItems(decisions, instructionId) <==>
                LastAccepts(decisions, instructionId, decisionItems[i])
    {
      AcceptedByLast(decisions, instructionId, decisionItems[i]);
    }
  }
}
