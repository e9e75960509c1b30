/** The delivery gate: how one observation is classified against its own dispatch. */
module Gate {
  import opened Prelude

  datatype DeliveryObservation = DeliveryObservation(
    repository: string,
    worktreePath: string,
    branchRef: string,
    baseRevision: Revision,
    initialHeadRevision: Revision,
    prHeadSha: string,
    ciHeadSha: string,
    ciPassed: bool,
    approvals: int,
    scopeOk: bool,
    merged: bool,
    mergeRevision: Option<Revision>,
    baseIsAncestor: bool,
    reviewsResolved: Option<bool>,
    linkedToTicket: Option<bool>,
    changesRequested: bool,
    requiredReviewersSatisfied: Option<bool>,
    ciPending: bool,
    mergeRevisionInTarget: Option<bool>)

  datatype ReviewPolicyData = ReviewPolicyData(requiredApprovals: int, requiredReviewers: seq<string>)

  type ReviewPolicy = p: ReviewPolicyData | p.requiredApprovals >= 1 witness ReviewPolicyData(1, [])

  datatype Dispatch = Dispatch(
    item: ItemId,
    base: Revision,
    repository: string,
    worktreePath: string,
    branchRef: string,
    attempt: nat)

  datatype FailureCode =
    | WorkspaceDrift
    | MissingPullRequest
    | CiPending
    | StaleCi
    | PullRequestUnlinked
    | BaseRevisionMismatch
    | CiFailed
    | ReviewChangesRequested
    | RequiredReviewerMissing
    | ReviewPending
    | MergeNotObserved
    | MergeRevisionNotInTarget
    | OutOfScopeDiff
    | Operational(name: string)

  datatype FailureRecord = FailureRecord(code: FailureCode, retryable: bool)

  datatype GateStatus = Pending | Blocked | Approved

  datatype GateDecision = GateDecision(status: GateStatus, failure: Option<FailureRecord>, warnings: seq<FailureRecord>)

  const UNDECIDED := GateDecision(Pending, None, [])

  function Classify(policy: ReviewPolicy, d: Dispatch, o: DeliveryObservation): Option<FailureRecord> {
    if o.repository != d.repository || o.worktreePath != d.worktreePath || o.branchRef != d.branchRef then
      Some(FailureRecord(WorkspaceDrift, true))
    else if o.baseRevision != d.base then
      Some(FailureRecord(WorkspaceDrift, true))
    else if o.initialHeadRevision != o.baseRevision then
      Some(FailureRecord(WorkspaceDrift, false))
    else if o.prHeadSha == "" then
      Some(FailureRecord(MissingPullRequest, true))
    else if o.ciPending then
      Some(FailureRecord(CiPending, true))
    else if o.ciHeadSha != o.prHeadSha then
      Some(FailureRecord(StaleCi, true))
    else if o.linkedToTicket != Some(true) then
      Some(FailureRecord(PullRequestUnlinked, true))
    else if !o.baseIsAncestor then
      Some(FailureRecord(BaseRevisionMismatch, true))
    else if !o.ciPassed then
      Some(FailureRecord(CiFailed, true))
    else if o.changesRequested || o.reviewsResolved == Some(false) then
      Some(FailureRecord(ReviewChangesRequested, true))
    else if policy.requiredReviewers != [] && o.requiredReviewersSatisfied != Some(true) then
      Some(FailureRecord(RequiredReviewerMissing, true))
    else if o.approvals < policy.requiredApprovals then
      Some(FailureRecord(ReviewPending, true))
    else if !o.merged then
      Some(FailureRecord(MergeNotObserved, true))
    else if o.mergeRevisionInTarget == Some(false) then
      Some(FailureRecord(MergeRevisionNotInTarget, true))
    else None
  }

  function Warnings(o: DeliveryObservation): seq<FailureRecord> {
    if o.scopeOk then [] else [FailureRecord(OutOfScopeDiff, false)]
  }

  predicate IsPendingCode(code: FailureCode) {
    code.CiPending? || code.StaleCi? || code.ReviewPending? || code.MergeNotObserved?
  }

  function Decide(policy: ReviewPolicy, d: Dispatch, o: DeliveryObservation): GateDecision {
    var failure := Classify(policy, d, o);
    var status :=
      if failure.None? then Approved
      else if IsPendingCode(failure.value.code) then Pending
      else Blocked;
    GateDecision(status, failure, Warnings(o))
  }

  // The published gate contract, written as independent requirements.

  /** The observed workspace is the assigned one, created at the assigned base. */
  predicate WorkspaceIsAssigned(d: Dispatch, o: DeliveryObservation) {
    && (o.repository, o.worktreePath, o.branchRef) == (d.repository, d.worktreePath, d.branchRef)
    && o.initialHeadRevision == o.baseRevision == d.base
  }

  /** Reviews are resolved and every reviewer the policy names has approved. */
  predicate NoReviewObjection(policy: ReviewPolicy, o: DeliveryObservation) {
    && !o.changesRequested && o.reviewsResolved != Some(false)
    && (policy.requiredReviewers == [] || o.requiredReviewersSatisfied == Some(true))
  }

  /** A linked pull request on the assigned base whose current head passed CI and has no objection. */
  predicate Deliverable(policy: ReviewPolicy, d: Dispatch, o: DeliveryObservation) {
    && WorkspaceIsAssigned(d, o)
    && o.prHeadSha != "" && !o.ciPending && o.ciHeadSha == o.prHeadSha && o.ciPassed
    && o.linkedToTicket == Some(true) && o.baseIsAncestor
    && NoReviewObjection(policy, o)
  }

  predicate HumanApprovedAndMerged(policy: ReviewPolicy, o: DeliveryObservation) {
    o.approvals >= policy.requiredApprovals && o.merged && o.mergeRevisionInTarget != Some(false)
  }

  /** The gate approves exactly what the contract asks for. */
  lemma GateIsExact(policy: ReviewPolicy, d: Dispatch, o: DeliveryObservation)
    ensures Decide(policy, d, o).status == Approved <==> Deliverable(policy, d, o) && HumanApprovedAndMerged(policy, o)
    ensures Decide(policy, d, o).status == Approved ==> o.approvals >= 1 && o.merged
  {
  }

  /** A delivery waits exactly while CI on its head, the approval or the human merge is outstanding. */
  lemma PendingIsExact(policy: ReviewPolicy, d: Dispatch, o: DeliveryObservation)
    ensures Decide(policy, d, o).status == Pending <==>
      && WorkspaceIsAssigned(d, o) && o.prHeadSha != ""
      && (|| o.ciPending
          || o.ciHeadSha != o.prHeadSha
          || (Deliverable(policy, d, o) && (o.approvals < policy.requiredApprovals || !o.merged)))
  {
  }

  /** Out-of-scope changes are always reported and never decide the gate. */
  lemma ScopeOnlyWarns(policy: ReviewPolicy, d: Dispatch, o: DeliveryObservation, scopeOk: bool)
    ensures Decide(policy, d, o.(scopeOk := scopeOk)).status == Decide(policy, d, o).status
    ensures Decide(policy, d, o).warnings == [] <==> o.scopeOk
  {
  }

  // Which failure a delivery is given.

  predicate IsFailure(decision: GateDecision, code: FailureCode, retryable: bool) {
    decision.failure == Some(FailureRecord(code, retryable))
  }

  predicate InItsPlace(d: Dispatch, o: DeliveryObservation) {
    (o.repository, o.worktreePath, o.branchRef) == (d.repository, d.worktreePath, d.branchRef) && o.baseRevision == d.base
  }

  /** CI has finished on the head of the pull request. */
  predicate CiIsCurrent(d: Dispatch, o: DeliveryObservation) {
    WorkspaceIsAssigned(d, o) && o.prHeadSha != "" && !o.ciPending && o.ciHeadSha == o.prHeadSha
  }

  predicate OnItsBase(d: Dispatch, o: DeliveryObservation) {
    CiIsCurrent(d, o) && o.linkedToTicket == Some(true) && o.baseIsAncestor
  }

  predicate HasNoObjection(d: Dispatch, o: DeliveryObservation) {
    OnItsBase(d, o) && o.ciPassed && !o.changesRequested && o.reviewsResolved != Some(false)
  }

  /** Every failure has its own cause, and says whether another attempt can help. */
  lemma WorkspaceFailuresAreExact(policy: ReviewPolicy, d: Dispatch, o: DeliveryObservation)
    ensures var decision := Decide(policy, d, o);
      && (IsFailure(decision, WorkspaceDrift, true) <==> !InItsPlace(d, o))
      && (IsFailure(decision, WorkspaceDrift, false) <==> InItsPlace(d, o) && o.initialHeadRevision != d.base)
      && (IsFailure(decision, MissingPullRequest, true) <==> WorkspaceIsAssigned(d, o) && o.prHeadSha == "")
      && (IsFailure(decision, CiPending, true) <==> WorkspaceIsAssigned(d, o) && o.prHeadSha != "" && o.ciPending)
      && (IsFailure(decision, StaleCi, true) <==>
            WorkspaceIsAssigned(d, o) && o.prHeadSha != "" && !o.ciPending && o.ciHeadSha != o.prHeadSha)
      && (IsFailure(decision, PullRequestUnlinked, true) <==> CiIsCurrent(d, o) && o.linkedToTicket != Some(true))
      && (IsFailure(decision, BaseRevisionMismatch, true) <==>
            CiIsCurrent(d, o) && o.linkedToTicket == Some(true) && !o.baseIsAncestor)
  {
  }

  lemma ReviewFailuresAreExact(policy: ReviewPolicy, d: Dispatch, o: DeliveryObservation)
    ensures var decision := Decide(policy, d, o);
      && (IsFailure(decision, CiFailed, true) <==> OnItsBase(d, o) && !o.ciPassed)
      && (IsFailure(decision, ReviewChangesRequested, true) <==>
            OnItsBase(d, o) && o.ciPassed && (o.changesRequested || o.reviewsResolved == Some(false)))
      && (IsFailure(decision, RequiredReviewerMissing, true) <==>
            HasNoObjection(d, o) && policy.requiredReviewers != [] && o.requiredReviewersSatisfied != Some(true))
      && (IsFailure(decision, ReviewPending, true) <==> Deliverable(policy, d, o) && o.approvals < policy.requiredApprovals)
      && (IsFailure(decision, MergeNotObserved, true) <==>
            Deliverable(policy, d, o) && o.approvals >= policy.requiredApprovals && !o.merged)
      && (IsFailure(decision, MergeRevisionNotInTarget, true) <==>
            Deliverable(policy, d, o) && o.approvals >= policy.requiredApprovals && o.merged && o.mergeRevisionInTarget == Some(false))
  {
  }

  /** An approval has no failure, and out-of-scope changes are its only possible warning. */
  lemma DecisionsExplainThemselves(policy: ReviewPolicy, d: Dispatch, o: DeliveryObservation)
    ensures var decision := Decide(policy, d, o);
      && (decision.failure.None? <==> decision.status.Approved?)
      && decision.warnings == if o.scopeOk then [] else [FailureRecord(OutOfScopeDiff, false)]
  {
  }
}
