/** One batch with the rows that hang on it: assignments, handoffs, receipt, treatment event,
    analytics result and audit log. Every function is one transaction's effect on them. */
module BatchCase {
  import opened Wrappers
  import opened Vocabulary
  import opened Snapshots
  import Impact

  datatype Actor = Actor(user: string, org: string)

  datatype AssignmentStatus =
    PendingAssignment | AcceptedAssignment | SupersededAssignment | CompletedAssignment | FailedAssignment

  datatype Assignment = Assignment(
    id: string, claimId: string, recyclerOrg: string, collector: Actor, scopeId: string,
    sequence: nat, previous: Option<string>, status: AssignmentStatus, version: nat, assignedAt: int)

  datatype Handoff = Handoff(id: string, assignmentId: string, collected: bool)

  datatype AuditKind =
    | DraftSaved | RequestSubmittedEntry | MatchingCompletedEntry | ClaimConfirmed | CollectorAssigned
    | AssignmentAccepted | AssignmentRejected | CollectionCompleted | CollectionFailed | RecoveryApproved
    | ReceiptVerified | TreatmentRecorded | AnalyticsCompleted

  datatype Audit = Audit(kind: AuditKind, from: BatchStatus, to: BatchStatus, version: nat)

  // One candidate row of a matching decision, as far as a claim reads it.
  datatype MatchedRow = MatchedRow(org: string, poolId: Option<string>, isMatched: bool)

  datatype MatchDecision = MatchDecision(id: string, version: int, epoch: int, matched: bool, rows: seq<MatchedRow>)

  // The draft's columns: what a create or an edit request supplies, and what the row holds.
  datatype Columns = Columns(
    category: Option<string>, quantity: Option<int>, weightKg: Option<string>, condition: Option<string>,
    isDataBearing: Option<bool>, zone: Option<string>, deadline: Option<int>)

  datatype ReceiptRow = ReceiptRow(id: string, facility: Actor, figures: Impact.Receipt)

  // analytics_run_id is a name-based identifier: the named value stands for it.
  datatype RunId = RunId(eventId: string, ruleVersion: string, input: Impact.Frozen)

  datatype Acknowledgement = Acknowledgement(
    sourceEventId: string, sourceVersion: int, runId: RunId, input: Impact.Frozen, result: Impact.ImpactResult)

  datatype Completion = Completion(resultId: string, ack: Acknowledgement, eventId: string, correlationId: string)

  datatype Case = Case(
    donor: Actor, columns: Columns, details: Option<Details>, status: BatchStatus, version: nat, epoch: nat,
    claim: Option<string>, assignment: Option<string>, decisions: seq<MatchDecision>,
    assignments: seq<Assignment>, handoffs: seq<Handoff>, receipt: Option<ReceiptRow>,
    source: Option<Impact.Recycled>, results: seq<Completion>, audit: seq<Audit>)

  datatype Error =
    | Forbidden | NotFound | InvalidState | StaleVersion | ValidationFailed | IdempotencyConflict
    | CapacityUnavailable | Concurrency | Busy | Unavailable

  // uint32(expected): the narrowing conversion of claims and assignments.
  function Narrowed(expected: int): int { expected % (MAX_UINT32 + 1) }

  // Every guarded update raises the version by one and appends one audit entry.
  function Raised(c: Case, kind: AuditKind, to: BatchStatus): Result<Case, Error> {
    if c.version >= MAX_UINT32 then Err(Unavailable)
    else Ok(c.(status := to, version := c.version + 1, audit := c.audit + [Audit(kind, c.status, to, c.version + 1)]))
  }

  // ---------------------------------------------------------------- batch.go

  function Supplied<T>(held: Option<T>, given: Option<T>): Option<T> { if given.Some? then given else held }

  // draftChanges: a request changes the columns it supplies and no other.
  function Merged(held: Columns, given: Columns): Columns {
    Columns(Supplied(held.category, given.category), Supplied(held.quantity, given.quantity),
            Supplied(held.weightKg, given.weightKg), Supplied(held.condition, given.condition),
            Supplied(held.isDataBearing, given.isDataBearing), Supplied(held.zone, given.zone),
            Supplied(held.deadline, given.deadline))
  }

  // Every column a submission needs; is_data_bearing is false unless supplied.
  function Complete(c: Columns, org: string, submittedAt: int): Option<Details> {
    if c.category.None? || c.quantity.None? || c.weightKg.None? || c.condition.None? || c.zone.None? || c.deadline.None? then None
    else
      Some(Details(org, submittedAt, c.category.value, c.quantity.value, c.weightKg.value, c.condition.value,
                   c.isDataBearing == Some(true), c.zone.value, c.deadline.value))
  }

  // What the matching and processing components read is fixed by the submission.
  function Created(donor: Actor, columns: Columns): Case {
    Case(donor, columns, None, Draft, 1, 1, None, None, [], [], [], None, None, [], [Audit(DraftSaved, Draft, Draft, 1)])
  }

  function Edited(c: Case, actor: Actor, expected: int, columns: Columns): Result<Case, Error> {
    if c.donor != actor then Err(Forbidden)
    else if c.status != Draft then Err(InvalidState)
    else if c.version != expected then Err(StaleVersion)
    else Raised(c.(columns := Merged(c.columns, columns)), DraftSaved, Draft)
  }

  // valid is validateStoredBatch's verdict on the stored details at this instant.
  function SubmittedAt(c: Case, actor: Actor, expected: int, valid: Details -> bool, now: int): Result<Case, Error> {
    if c.donor != actor then Err(Forbidden)
    else if c.status != Draft then Err(InvalidState)
    else if c.version != expected then Err(StaleVersion)
    else if Complete(c.columns, c.donor.org, now).None? then Err(ValidationFailed)
    else if !valid(Complete(c.columns, c.donor.org, now).value) then Err(ValidationFailed)
    else Raised(c.(details := Complete(c.columns, c.donor.org, now)), RequestSubmittedEntry, Submitted)
  }

  // ---------------------------------------------------------------- matching/store.go: persistResult

  function Decided(c: Case, id: string, matched: bool, rows: seq<MatchedRow>): Result<Case, Error> {
    if c.status != Submitted then Err(InvalidState)
    else
      var d := c.(decisions := c.decisions + [MatchDecision(id, c.version, c.epoch, matched, rows)]);
      if matched then Raised(d, MatchingCompletedEntry, MatchedBatch)
      else Ok(d.(audit := d.audit + [Audit(MatchingCompletedEntry, Submitted, Submitted, d.version)]))
  }

  // ---------------------------------------------------------------- claim.go

  // The completed decision the claim rests on: MATCHED, of this epoch, on the version before.
  predicate RestsOn(c: Case, d: MatchDecision) { d.matched && d.epoch == c.epoch && d.version == c.version - 1 }

  // FindEligibleMatch, the part about the decision: a matched row of the claimant that names a pool.
  predicate Offers(d: MatchDecision, org: string, k: nat) {
    k < |d.rows| && d.rows[k].org == org && d.rows[k].isMatched && d.rows[k].poolId.Some?
  }

  function ClaimGuard(c: Case, expected: int, epoch: int): Option<Error> {
    if c.version != Narrowed(expected) || c.epoch != epoch then Some(StaleVersion)
    else if c.status != MatchedBatch || c.claim.Some? then Some(InvalidState)
    else if c.details.None? then Some(ValidationFailed)
    else if !(exists i :: 0 <= i < |c.decisions| && RestsOn(c, c.decisions[i])) then Some(NotFound)
    else None
  }

  function ApprovedBy(c: Case, claimId: string): Result<Case, Error> {
    if c.status != MatchedBatch || c.claim.Some? then Err(Concurrency)
    else Raised(c.(claim := Some(claimId)), ClaimConfirmed, Approved)
  }

  // ---------------------------------------------------------------- assignment.go

  function Latest(c: Case): Option<Assignment> {
    if c.assignments == [] then None else Some(c.assignments[|c.assignments| - 1])
  }

  predicate AssignmentKnown(c: Case, id: string) { exists i :: 0 <= i < |c.assignments| && c.assignments[i].id == id }

  function SelectGuard(c: Case, expected: int, epoch: int): Option<Error> {
    if c.version != Narrowed(expected) || c.epoch != epoch then Some(StaleVersion)
    else if c.status != Approved || c.assignment.Some? then Some(InvalidState)
    else None
  }

  function Selected(c: Case, actor: Actor, expected: int, epoch: int, scopeId: string, recyclerOrg: string, id: string,
                    now: int): Result<Case, Error>
  {
    if SelectGuard(c, expected, epoch).Some? then Err(SelectGuard(c, expected, epoch).value)
    else if c.claim.None? then Err(NotFound)
    else if Latest(c).Some? && Latest(c).value.collector == actor then Err(Forbidden)
    else if AssignmentKnown(c, id) then Err(Unavailable)
    else
      var latest := Latest(c);
      var a := Assignment(id, c.claim.value, recyclerOrg, actor, scopeId,
                          if latest.Some? then latest.value.sequence + 1 else 1,
                          if latest.Some? then Some(latest.value.id) else None, AcceptedAssignment, 1, now);
      Raised(c.(assignments := c.assignments + [a], assignment := Some(id)), CollectorAssigned, Assigned)
  }

  // The assignment row by id, as FindAssignmentForUpdate finds it.
  function IndexOfAssignment(s: seq<Assignment>, id: string): (r: Option<nat>)
    ensures r.Some? ==> r.value < |s| && s[r.value].id == id
    ensures r.None? ==> forall i :: 0 <= i < |s| ==> s[i].id != id
  {
    if s == [] then None
    else if s[|s| - 1].id == id then Some(|s| - 1)
    else IndexOfAssignment(s[..|s| - 1], id)
  }

  function Restated(a: Assignment, status: AssignmentStatus): Assignment { a.(status := status, version := a.version + 1) }

  // What every collector command checks before it changes anything.
  function CollectorGuard(c: Case, i: nat, actor: Actor, expected: int): Option<Error>
    requires i < |c.assignments|
  {
    if c.assignments[i].collector != actor then Some(Forbidden)
    else if c.version != Narrowed(expected) || c.assignment != Some(c.assignments[i].id) then Some(StaleVersion)
    else None
  }

  function AcceptedBy(c: Case, i: nat, actor: Actor, expected: int): Result<Case, Error>
    requires i < |c.assignments|
  {
    var a := c.assignments[i];
    if CollectorGuard(c, i, actor, expected).Some? then Err(CollectorGuard(c, i, actor, expected).value)
    else if a.status != PendingAssignment || c.status != Assigned then Err(InvalidState)
    else Raised(c.(assignments := c.assignments[i := Restated(a, AcceptedAssignment)]), AssignmentAccepted, Assigned)
  }

  function RejectedBy(c: Case, i: nat, actor: Actor, expected: int): Result<Case, Error>
    requires i < |c.assignments|
  {
    var a := c.assignments[i];
    if CollectorGuard(c, i, actor, expected).Some? then Err(CollectorGuard(c, i, actor, expected).value)
    else if a.status != PendingAssignment && a.status != AcceptedAssignment then Err(InvalidState)
    else if c.status != Assigned then Err(Concurrency)
    else
      Raised(c.(assignments := c.assignments[i := Restated(a, SupersededAssignment)], assignment := None),
             AssignmentRejected, Approved)
  }

  // recordPickup: a handoff (collected) or a failed pickup. pickupAt is None for a failure.
  function PickedUp(c: Case, i: nat, actor: Actor, expected: int, pickupAt: Option<int>, handoffId: string)
    : Result<Case, Error>
    requires i < |c.assignments|
  {
    var a := c.assignments[i];
    if CollectorGuard(c, i, actor, expected).Some? then Err(CollectorGuard(c, i, actor, expected).value)
    else if a.status != AcceptedAssignment || c.status != Assigned then Err(InvalidState)
    else if pickupAt.Some? && pickupAt.value < a.assignedAt then Err(ValidationFailed)
    else
      var collected := pickupAt.Some?;
      var done := c.(handoffs := c.handoffs + [Handoff(handoffId, a.id, collected)],
                     assignments := c.assignments[i := Restated(a, if collected then CompletedAssignment else FailedAssignment)]);
      if collected then Raised(done, CollectionCompleted, Collected) else Raised(done, CollectionFailed, FailedCollection)
  }

  function Recovered(c: Case, i: nat): Result<Case, Error>
    requires i < |c.assignments|
  {
    var a := c.assignments[i];
    if a.status != FailedAssignment || c.status != FailedCollection || c.assignment != Some(a.id) then Err(InvalidState)
    else Raised(c.(assignment := None), RecoveryApproved, Approved)
  }

  // ---------------------------------------------------------------- receipt.go, treatment.go, analytics.go

  // ValidateReceiptScope, the part about the current assignment.
  predicate AssignmentInScope(c: Case, org: string) {
    exists i :: 0 <= i < |c.assignments| &&
      Some(c.assignments[i].id) == c.assignment && Some(c.assignments[i].claimId) == c.claim &&
      c.assignments[i].recyclerOrg == org && c.assignments[i].status in {AcceptedAssignment, CompletedAssignment}
  }

  function ReceiptTaken(c: Case, actor: Actor, expected: int, inScope: bool, figures: Impact.Receipt, id: string)
    : Result<Case, Error>
  {
    if c.status != Collected then Err(InvalidState)
    else if c.version != expected then Err(StaleVersion)
    else if c.claim.None? || c.assignment.None? || !inScope || !AssignmentInScope(c, actor.org) then Err(Forbidden)
    else if c.receipt.Some? then Err(Unavailable)
    else Raised(c.(receipt := Some(ReceiptRow(id, actor, figures))), ReceiptVerified, Verified)
  }

  function DeclaredOf(c: Case): Impact.Declared {
    if c.details.None? then Impact.Declared("", 0, "")
    else Impact.Declared(c.details.value.category, c.details.value.quantity, c.details.value.weightKg)
  }

  // The RecyclingCompleted event, frozen with the policy version in force.
  function SourceEvent(c: Case, batchId: string, actor: Actor, t: Impact.Treatment, ruleVersion: string,
                       treatmentId: string, eventId: string, correlationId: string): Impact.Recycled
    requires c.receipt.Some?
  {
    Impact.Recycled(eventId, batchId, c.version + 1, correlationId,
                    Impact.EventData(
                      Impact.EventMeasures(DeclaredOf(c), c.receipt.value.figures, t),
                      Impact.Provenance(treatmentId, c.receipt.value.id, 1, 1, batchId, actor.org, actor.user,
                                        t.evidenceId, c.epoch),
                      ruleVersion))
  }

  function Treated(c: Case, batchId: string, actor: Actor, expected: int, inScope: bool, evidenceOk: bool,
                   treatment: Result<Impact.Treatment, Impact.TreatmentError>, ruleVersion: string,
                   treatmentId: string, eventId: string, correlationId: string): Result<Case, Error>
  {
    if c.status != Verified then Err(InvalidState)
    else if c.version != expected then Err(StaleVersion)
    else if c.claim.None? || c.assignment.None? || !inScope || !AssignmentInScope(c, actor.org) then Err(Forbidden)
    else if c.receipt.None? then Err(InvalidState)
    else if treatment.Err? then Err(ValidationFailed)
    else if treatment.value.evidenceId.Some? && !evidenceOk then Err(NotFound)
    else if c.source.Some? then Err(Unavailable)
    else
      Raised(c.(source := Some(SourceEvent(c, batchId, actor, treatment.value, ruleVersion, treatmentId, eventId, correlationId))),
             TreatmentRecorded, Recycled)
  }

  // What AcknowledgeAnalytics checks of a first acknowledgement against the frozen event. accepts is
  // the metric and anomaly validation.
  function AckGuard(c: Case, expected: int, ack: Acknowledgement, accepts: (Impact.EventData, Impact.ImpactResult) -> bool)
    : Option<Error>
  {
    if c.source.None? || c.source.value.eventId != ack.sourceEventId then Some(NotFound)
    else if c.source.value.aggregateVersion != ack.sourceVersion then Some(ValidationFailed)
    else if c.source.value.data.ruleVersion != ack.result.ruleVersion then Some(ValidationFailed)
    else if Impact.CanonicalInput(c.source.value) != ack.input then Some(ValidationFailed)
    else if c.status != Recycled then Some(InvalidState)
    else if c.version != expected || c.version != ack.sourceVersion then Some(StaleVersion)
    else if !accepts(c.source.value.data, ack.result) then Some(ValidationFailed)
    else None
  }

  function CompletedBy(c: Case, expected: int, ack: Acknowledgement,
                       accepts: (Impact.EventData, Impact.ImpactResult) -> bool, resultId: string, eventId: string,
                       correlationId: string): Result<Case, Error>
  {
    if AckGuard(c, expected, ack, accepts).Some? then Err(AckGuard(c, expected, ack, accepts).value)
    else if c.results != [] then Err(Unavailable)
    else
      Raised(c.(results := c.results + [Completion(resultId, ack, eventId, correlationId)]), AnalyticsCompleted, Completed)
  }
}
