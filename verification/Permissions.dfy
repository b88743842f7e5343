/** Who may run each command, when, and what it changes: every condition and every effect written out
    on the rows, beside the transactions. */
module Permissions {
  import opened Wrappers
  import opened Vocabulary
  import opened Snapshots
  import opened BatchCase
  import opened CaseInvariant
  import opened Workflow
  import opened WorkflowRuns
  import Impact

  // The expected version of a claim or of a collector command, narrowed to 32 bits.
  predicate Expects(c: Case, expected: int) { c.version == expected % 0x1_0000_0000 }

  predicate HasRoom(c: Case) { c.version < 0xFFFF_FFFF }

  // The batch with its next version and the one audit entry that raises it.
  function Onwards(c: Case, kind: AuditKind, to: BatchStatus): Case {
    c.(status := to, version := c.version + 1, audit := c.audit + [Audit(kind, c.status, to, c.version + 1)])
  }

  // One batch is written and nothing else.
  predicate OnlyCase(db: Db, after: Db, id: string, next: Case) { after == db.(cases := db.cases[id := next]) }

  // ---------------------------------------------------------------- drafts

  predicate DonorMay(c: Case, actor: Actor, expected: int) {
    c.donor == actor && c.status == Draft && c.version == expected && HasRoom(c)
  }

  function DonorRefusal(c: Case, actor: Actor, expected: int, valid: bool): Error {
    if c.donor != actor then Forbidden
    else if c.status != Draft then InvalidState
    else if c.version != expected then StaleVersion
    else if !valid then ValidationFailed
    else Unavailable
  }

  // The given value replaces the held one; without one the held value stays.
  predicate Replaced<T(==)>(held: Option<T>, given: Option<T>, now: Option<T>) {
    (given.Some? ==> now == given) && (given.None? ==> now == held)
  }

  predicate ColumnsReplaced(held: Columns, given: Columns, now: Columns) {
    && Replaced(held.category, given.category, now.category) && Replaced(held.quantity, given.quantity, now.quantity)
    && Replaced(held.weightKg, given.weightKg, now.weightKg) && Replaced(held.condition, given.condition, now.condition)
    && Replaced(held.isDataBearing, given.isDataBearing, now.isDataBearing) && Replaced(held.zone, given.zone, now.zone)
    && Replaced(held.deadline, given.deadline, now.deadline)
  }

  // The submitted details are the columns; the data-bearing mark holds only when the column says so.
  predicate Freezes(c: Case, at: int, d: Details) {
    && d.organizationId == c.donor.org && d.submittedAt == at
    && c.columns.category == Some(d.category) && c.columns.quantity == Some(d.quantity)
    && c.columns.weightKg == Some(d.weightKg) && c.columns.condition == Some(d.condition)
    && c.columns.zone == Some(d.zone) && c.columns.deadline == Some(d.deadline)
    && (d.isDataBearing <==> c.columns.isDataBearing == Some(true))
  }

  ghost predicate Submittable(p: Checks, c: Case, at: int) { exists d :: Freezes(c, at, d) && p.submittable(d) }

  predicate CreateDoes(c: Case, actor: Actor, given: Columns) {
    && c.donor == actor && c.columns == given && c.details.None? && c.status == Draft && c.version == 1 && c.epoch == 1
    && c.claim.None? && c.assignment.None? && c.decisions == [] && c.assignments == [] && c.handoffs == []
    && c.receipt.None? && c.source.None? && c.results == [] && c.audit == [Audit(DraftSaved, Draft, Draft, 1)]
  }

  predicate EditDoes(c: Case, given: Columns, next: Case) {
    next == Onwards(c, DraftSaved, Draft).(columns := next.columns) && ColumnsReplaced(c.columns, given, next.columns)
  }

  predicate SubmitDoes(p: Checks, c: Case, at: int, next: Case) {
    && next == Onwards(c, RequestSubmittedEntry, Submitted).(details := next.details)
    && next.details.Some? && Freezes(c, at, next.details.value) && p.submittable(next.details.value)
  }

  lemma EditExactly(c: Case, actor: Actor, expected: int, given: Columns)
    ensures Edited(c, actor, expected, given).Ok? <==> DonorMay(c, actor, expected)
    ensures DonorMay(c, actor, expected) ==> EditDoes(c, given, Edited(c, actor, expected, given).value)
    ensures !DonorMay(c, actor, expected) ==>
              Edited(c, actor, expected, given) == Err(DonorRefusal(c, actor, expected, true))
  {
  }

  // Columns that freeze, freeze to what a submission stores.
  lemma FreezesOnce(c: Case, at: int, d: Details)
    ensures Freezes(c, at, d) <==> Complete(c.columns, c.donor.org, at) == Some(d)
  {
  }

  lemma SubmitExactly(p: Checks, c: Case, actor: Actor, expected: int, at: int)
    ensures SubmittedAt(c, actor, expected, p.submittable, at).Ok? <==> DonorMay(c, actor, expected) && Submittable(p, c, at)
    ensures DonorMay(c, actor, expected) && Submittable(p, c, at) ==>
              SubmitDoes(p, c, at, SubmittedAt(c, actor, expected, p.submittable, at).value)
    ensures !(DonorMay(c, actor, expected) && Submittable(p, c, at)) ==>
              SubmittedAt(c, actor, expected, p.submittable, at) ==
              Err(DonorRefusal(c, actor, expected, Submittable(p, c, at)))
  {
    var stored := Complete(c.columns, c.donor.org, at);
    if stored.Some? { FreezesOnce(c, at, stored.value); }
    forall d | Freezes(c, at, d) ensures stored == Some(d) { FreezesOnce(c, at, d); }
  }

  // ---------------------------------------------------------------- collector commands

  // Row i of the batch is the assignment.
  ghost predicate Row(db: Db, id: string, i: nat, assignmentId: string) {
    id in db.cases && i < |db.cases[id].assignments| && db.cases[id].assignments[i].id == assignmentId
  }

  predicate ByCollector(r: Request) { r.AcceptAssignment? || r.RejectAssignment? || r.RecordHandoff? || r.FailPickup? }

  // The assignment's status lets the command through.
  predicate Lets(r: Request, a: Assignment)
    requires ByCollector(r)
  {
    match r
    case AcceptAssignment(_, _) => a.status == PendingAssignment
    case RejectAssignment(_, _, _) => a.status in {PendingAssignment, AcceptedAssignment}
    case _ => a.status == AcceptedAssignment
  }

  // A handoff is not before the assignment.
  predicate InTime(r: Request, a: Assignment) { r.RecordHandoff? ==> a.assignedAt <= r.pickupAt }

  // The assignment's own collector, on the version expected, while it is the current one.
  predicate CollectorMay(c: Case, i: nat, actor: Actor, r: Request)
    requires ByCollector(r) && i < |c.assignments|
  {
    var a := c.assignments[i];
    && a.collector == actor && Expects(c, r.expected) && c.assignment == Some(a.id)
    && Lets(r, a) && c.status == Assigned && InTime(r, a) && HasRoom(c)
  }

  function CollectorRefusal(c: Case, i: nat, actor: Actor, r: Request): Error
    requires ByCollector(r) && i < |c.assignments|
  {
    var a := c.assignments[i];
    if a.collector != actor then Forbidden
    else if !Expects(c, r.expected) || c.assignment != Some(a.id) then StaleVersion
    else if !Lets(r, a) then InvalidState
    else if !InTime(r, a) then ValidationFailed
    else Unavailable
  }

  // Accepted, superseded, completed or failed, with the version of the assignment raised.
  function StatusAfter(r: Request): AssignmentStatus
    requires ByCollector(r)
  {
    match r
    case AcceptAssignment(_, _) => AcceptedAssignment
    case RejectAssignment(_, _, _) => SupersededAssignment
    case RecordHandoff(_, _, _) => CompletedAssignment
    case FailPickup(_, _, _) => FailedAssignment
  }

  predicate CollectorDoes(c: Case, i: nat, r: Request, rowId: string, next: Case)
    requires ByCollector(r) && i < |c.assignments|
  {
    var a := c.assignments[i];
    var rows := c.assignments[i := a.(status := StatusAfter(r), version := a.version + 1)];
    match r
    case AcceptAssignment(_, _) => next == Onwards(c, AssignmentAccepted, Assigned).(assignments := rows)
    case RejectAssignment(_, _, _) =>
      next == Onwards(c, AssignmentRejected, Approved).(assignments := rows, assignment := None)
    case RecordHandoff(_, _, _) =>
      next == Onwards(c, CollectionCompleted, Collected).(assignments := rows, handoffs := c.handoffs + [Handoff(rowId, a.id, true)])
    case FailPickup(_, _, _) =>
      next == Onwards(c, CollectionFailed, FailedCollection).(assignments := rows, handoffs := c.handoffs + [Handoff(rowId, a.id, false)])
  }

  lemma CollectorExactly(c: Case, i: nat, actor: Actor, r: Request, rowId: string)
    requires ByCollector(r) && i < |c.assignments| && CaseSound(c)
    ensures var done := AssignmentNext(c, i, actor, r, rowId);
            && (done.Ok? <==> CollectorMay(c, i, actor, r))
            && (done.Ok? ==> CollectorDoes(c, i, r, rowId, done.value))
            && (done.Err? ==> done.error == CollectorRefusal(c, i, actor, r))
  {
    var a := c.assignments[i];
    assert c.assignment == Some(a.id) && Open(a) ==> c.status == Assigned;
  }

  predicate RecoverMay(c: Case, i: nat)
    requires i < |c.assignments|
  {
    c.assignments[i].status == FailedAssignment && c.status == FailedCollection && c.assignment == Some(c.assignments[i].id) && HasRoom(c)
  }

  function RecoverRefusal(c: Case, i: nat): Error
    requires i < |c.assignments|
  {
    if c.assignments[i].status == FailedAssignment && c.status == FailedCollection && c.assignment == Some(c.assignments[i].id)
    then Unavailable else InvalidState
  }

  predicate RecoverDoes(c: Case, next: Case) { next == Onwards(c, RecoveryApproved, Approved).(assignment := None) }

  lemma RecoverExactly(c: Case, i: nat)
    requires i < |c.assignments|
    ensures Recovered(c, i).Ok? <==> RecoverMay(c, i)
    ensures RecoverMay(c, i) ==> RecoverDoes(c, Recovered(c, i).value)
    ensures !RecoverMay(c, i) ==> Recovered(c, i) == Err(RecoverRefusal(c, i))
  {
  }

  // ---------------------------------------------------------------- receipts and treatments

  // The batch's own claim is row k.
  ghost predicate OwnClaim(db: Db, id: string, c: Case, k: nat) {
    k < |db.claims| && Some(db.claims[k].id) == c.claim && db.claims[k].batchId == id
  }

  ghost predicate HoldsClaim(db: Db, id: string, c: Case, org: string) {
    exists k: nat :: OwnClaim(db, id, c, k) && db.claims[k].recycler.org == org
  }

  // The organisation holds the batch's claim, and its current assignment goes to it.
  ghost predicate Facility(db: Db, id: string, c: Case, org: string) {
    HoldsClaim(db, id, c, org) && c.assignments != [] && c.assignments[|c.assignments| - 1].recyclerOrg == org
  }

  lemma ClaimScopeExact(p: Checks, db: Db, id: string, org: string)
    requires ClaimsSound(p, db) && id in db.cases
    ensures ClaimInScope(db, id, db.cases[id], org) <==> HoldsClaim(db, id, db.cases[id], org)
  {
    var c := db.cases[id];
    if ClaimInScope(db, id, c, org) {
      var k :| 0 <= k < |db.claims| && Some(db.claims[k].id) == c.claim && db.claims[k].batchId == id &&
        db.claims[k].epoch == c.epoch && db.claims[k].recycler.org == org;
      assert OwnClaim(db, id, c, k);
    }
    if HoldsClaim(db, id, c, org) {
      var k: nat :| OwnClaim(db, id, c, k) && db.claims[k].recycler.org == org;
      assert ClaimSound(p, db, db.claims[k], db.reservations[k]);
    }
  }

  lemma AssignmentScopeExact(c: Case, org: string)
    requires CaseSound(c) && c.status in {Collected, Verified}
    ensures c.claim.Some? && c.assignment.Some? && c.assignments != []
    ensures AssignmentInScope(c, org) <==> c.assignments[|c.assignments| - 1].recyclerOrg == org
  {
    var last := |c.assignments| - 1;
    assert forall i :: 0 <= i < last ==> c.assignments[i].id != c.assignments[last].id;
    assert Some(c.assignments[last].claimId) == c.claim;
  }

  // While the batch is collected or verified, the scope checks are exactly that.
  lemma ScopeIsFacility(p: Checks, db: Db, id: string, org: string)
    requires Inv(p, db) && id in db.cases && db.cases[id].status in {Collected, Verified}
    ensures var c := db.cases[id];
            && c.claim.Some? && c.assignment.Some?
            && (Facility(db, id, c, org) <==> ClaimInScope(db, id, c, org) && AssignmentInScope(c, org))
  {
    assert CaseSound(db.cases[id]);
    ClaimScopeExact(p, db, id, org);
    AssignmentScopeExact(db.cases[id], org);
  }

  ghost predicate ReceiptMay(db: Db, id: string, c: Case, actor: Actor, expected: int) {
    c.status == Collected && c.version == expected && Facility(db, id, c, actor.org) && HasRoom(c)
  }

  ghost function FacilityRefusal(db: Db, id: string, c: Case, actor: Actor, expected: int, status: BatchStatus): Error {
    if c.status != status then InvalidState
    else if c.version != expected then StaleVersion
    else if !Facility(db, id, c, actor.org) then Forbidden
    else Unavailable
  }

  predicate ReceiptDoes(c: Case, actor: Actor, figures: Impact.Receipt, rowId: string, next: Case) {
    next == Onwards(c, ReceiptVerified, Verified).(receipt := Some(ReceiptRow(rowId, actor, figures)))
  }

  lemma ReceiptExactly(p: Checks, db: Db, id: string, actor: Actor, expected: int, figures: Impact.Receipt, rowId: string)
    requires Inv(p, db) && id in db.cases
    ensures var c := db.cases[id];
            var done := ReceiptTaken(c, actor, expected, ClaimInScope(db, id, c, actor.org), figures, rowId);
            && (done.Ok? <==> ReceiptMay(db, id, c, actor, expected))
            && (done.Ok? ==> ReceiptDoes(c, actor, figures, rowId, done.value))
            && (done.Err? ==> done.error == FacilityRefusal(db, id, c, actor, expected, Collected))
  {
    assert CaseSound(db.cases[id]);
    if db.cases[id].status == Collected { ScopeIsFacility(p, db, id, actor.org); }
  }

  // The treatment the request comes to against the stored receipt.
  function TreatmentOf(p: Checks, c: Case, request: Impact.TreatmentRequest): Result<Impact.Treatment, Impact.TreatmentError> {
    if c.receipt.Some? then p.normalize(request, c.receipt.value.figures.weightKg) else Err(Impact.ReceivedWeightInvalid)
  }

  predicate EvidenceFound(t: Impact.Treatment, evidenceOk: bool) { t.evidenceId.Some? ==> evidenceOk }

  ghost predicate TreatMay(p: Checks, db: Db, id: string, c: Case, actor: Actor, expected: int, request: Impact.TreatmentRequest,
                           evidenceOk: bool)
  {
    && c.status == Verified && c.version == expected && Facility(db, id, c, actor.org) && HasRoom(c)
    && TreatmentOf(p, c, request).Ok? && EvidenceFound(TreatmentOf(p, c, request).value, evidenceOk)
  }

  // The event names what it comes from, and carries the declared, the received and the treated figures.
  predicate EventTells(p: Checks, id: string, c: Case, actor: Actor, t: Impact.Treatment, m: Meta, draw: Draw, e: Impact.Recycled)
  {
    && c.details.Some? && c.receipt.Some?
    && e.eventId == draw.eventId && e.batchId == id && e.aggregateVersion == c.version + 1 && e.correlationId == m.correlationId
    && e.data.ruleVersion == p.ruleVersion
    && e.data.provenance.treatmentId == draw.rowId && e.data.provenance.receiptId == c.receipt.value.id
    && e.data.provenance.receiptVersion == 1 && e.data.provenance.treatmentVersion == 1 && e.data.provenance.batchId == id
    && e.data.provenance.facilityOrgId == actor.org && e.data.provenance.actorUserId == actor.user
    && e.data.provenance.evidenceId == t.evidenceId && e.data.provenance.claimEpoch == c.epoch
    && e.data.measures.declaredCategory == c.details.value.category
    && e.data.measures.declaredQuantity == c.details.value.quantity
    && e.data.measures.declaredWeightKg == c.details.value.weightKg
    && e.data.measures.actualCategory == c.receipt.value.figures.category
    && e.data.measures.actualItemCount == c.receipt.value.figures.itemCount
    && e.data.measures.actualWeightKg == c.receipt.value.figures.weightKg
    && e.data.measures.reusedKg == t.reusedKg && e.data.measures.recycledKg == t.recycledKg
    && e.data.measures.disposedKg == t.disposedKg && e.data.measures.unknownKg == Some(t.unknownKg)
    && e.data.measures.divertedKg == t.divertedKg && e.data.measures.quality == t.quality
  }

  predicate TreatDoes(p: Checks, id: string, c: Case, m: Meta, request: Impact.TreatmentRequest, draw: Draw, next: Case) {
    && next == Onwards(c, TreatmentRecorded, Recycled).(source := next.source)
    && next.source.Some? && TreatmentOf(p, c, request).Ok?
    && EventTells(p, id, c, ActorOf(m), TreatmentOf(p, c, request).value, m, draw, next.source.value)
  }

  ghost function TreatRefusal(p: Checks, db: Db, id: string, c: Case, actor: Actor, expected: int,
                              request: Impact.TreatmentRequest, evidenceOk: bool): Error
  {
    if c.status == Verified && c.version == expected && Facility(db, id, c, actor.org) then
      if TreatmentOf(p, c, request).Err? then ValidationFailed
      else if !EvidenceFound(TreatmentOf(p, c, request).value, evidenceOk) then NotFound
      else Unavailable
    else FacilityRefusal(db, id, c, actor, expected, Verified)
  }

  lemma EventTold(p: Checks, id: string, c: Case, t: Impact.Treatment, m: Meta, draw: Draw)
    requires c.details.Some? && c.receipt.Some?
    ensures EventTells(p, id, c, ActorOf(m), t, m, draw,
                       SourceEvent(c, id, ActorOf(m), t, p.ruleVersion, draw.rowId, draw.eventId, m.correlationId))
  {
  }

  // The transaction with its scope and its treatment given.
  lemma TreatCase(c: Case, id: string, actor: Actor, expected: int, inScope: bool, evidenceOk: bool,
                  treatment: Result<Impact.Treatment, Impact.TreatmentError>, ruleVersion: string, treatmentId: string,
                  eventId: string, correlationId: string)
    requires CaseSound(c)
    ensures var done := Treated(c, id, actor, expected, inScope, evidenceOk, treatment, ruleVersion, treatmentId, eventId, correlationId);
            var allowed := c.status == Verified && c.version == expected && inScope && AssignmentInScope(c, actor.org);
            && (done.Ok? <==> allowed && treatment.Ok? && EvidenceFound(treatment.value, evidenceOk) && HasRoom(c))
            && (done.Ok? ==>
                  c.details.Some? && c.receipt.Some? &&
                  done.value == Onwards(c, TreatmentRecorded, Recycled)
                    .(source := Some(SourceEvent(c, id, actor, treatment.value, ruleVersion, treatmentId, eventId, correlationId))))
            && (done.Err? ==>
                  done.error ==
                  if c.status != Verified then InvalidState
                  else if c.version != expected then StaleVersion
                  else if !allowed then Forbidden
                  else if treatment.Err? then ValidationFailed
                  else if !EvidenceFound(treatment.value, evidenceOk) then NotFound
                  else Unavailable)
  {
    if c.status == Verified { AssignmentScopeExact(c, actor.org); }
  }

  lemma TreatExactly(p: Checks, db: Db, id: string, m: Meta, expected: int, request: Impact.TreatmentRequest, o: Oracle, draw: Draw,
                     done: Result<Case, Error>)
    requires Inv(p, db) && id in db.cases
    requires done == Treated(db.cases[id], id, ActorOf(m), expected, ClaimInScope(db, id, db.cases[id], ActorOf(m).org), o.evidenceOk,
                             TreatmentOf(p, db.cases[id], request), p.ruleVersion, draw.rowId, draw.eventId, m.correlationId)
    ensures done.Ok? <==> TreatMay(p, db, id, db.cases[id], ActorOf(m), expected, request, o.evidenceOk)
    ensures done.Ok? ==> TreatDoes(p, id, db.cases[id], m, request, draw, done.value)
    ensures done.Err? ==> done.error == TreatRefusal(p, db, id, db.cases[id], ActorOf(m), expected, request, o.evidenceOk)
  {
    var c, actor, treatment := db.cases[id], ActorOf(m), TreatmentOf(p, db.cases[id], request);
    assert CaseSound(c);
    if c.status == Verified { ScopeIsFacility(p, db, id, actor.org); }
    TreatCase(c, id, actor, expected, ClaimInScope(db, id, c, actor.org), o.evidenceOk, treatment, p.ruleVersion, draw.rowId,
              draw.eventId, m.correlationId);
    if done.Ok? { EventTold(p, id, c, treatment.value, m, draw); }
  }

  // ---------------------------------------------------------------- acknowledgements

  predicate NamesSource(c: Case, ack: Acknowledgement) { c.source.Some? && c.source.value.eventId == ack.sourceEventId }

  // The acknowledgement carries the frozen event it answers.
  predicate Carries(e: Impact.Recycled, ack: Acknowledgement) {
    && e.aggregateVersion == ack.sourceVersion && e.data.ruleVersion == ack.result.ruleVersion
    && ack.input.data == e.data && ack.input.sourceEventId == e.eventId
    && ack.input.aggregateVersion == e.aggregateVersion && ack.input.correlationId == e.correlationId
  }

  predicate AckMay(p: Checks, c: Case, expected: int, ack: Acknowledgement) {
    && NamesSource(c, ack) && Carries(c.source.value, ack) && c.status == Recycled
    && c.version == expected && c.version == ack.sourceVersion && p.accepts(c.source.value.data, ack.result) && HasRoom(c)
  }

  function AckRefusal(p: Checks, c: Case, expected: int, ack: Acknowledgement): Error {
    if !NamesSource(c, ack) then NotFound
    else if !Carries(c.source.value, ack) then ValidationFailed
    else if c.status != Recycled then InvalidState
    else if c.version != expected || c.version != ack.sourceVersion then StaleVersion
    else if !p.accepts(c.source.value.data, ack.result) then ValidationFailed
    else Unavailable
  }

  predicate AckDoes(c: Case, ack: Acknowledgement, m: Meta, draw: Draw, next: Case) {
    next == Onwards(c, AnalyticsCompleted, Completed)
              .(results := [Completion(draw.rowId, ack, draw.eventId, m.correlationId)])
  }

  lemma AckExactly(p: Checks, c: Case, expected: int, ack: Acknowledgement, m: Meta, draw: Draw, done: Result<Case, Error>)
    requires c.status == Recycled ==> c.results == []
    requires done == CompletedBy(c, expected, ack, p.accepts, draw.rowId, draw.eventId, m.correlationId)
    ensures done.Ok? <==> AckMay(p, c, expected, ack)
    ensures done.Ok? ==> AckDoes(c, ack, m, draw, done.value)
    ensures done.Err? ==> done.error == AckRefusal(p, c, expected, ack)
  {
  }

  // A stored result answers the same acknowledgement again: run, input, rule, quality, metrics and,
  // in any order, anomalies.
  predicate SameAgain(done: Completion, expected: int, ack: Acknowledgement) {
    && done.ack.runId == ack.runId && done.ack.sourceVersion == ack.sourceVersion && expected == ack.sourceVersion
    && done.ack.input == ack.input && done.ack.result.ruleVersion == ack.result.ruleVersion
    && done.ack.result.quality == ack.result.quality && done.ack.result.metrics == ack.result.metrics
    && multiset(done.ack.result.anomalies) == multiset(ack.result.anomalies)
  }

  /** A repeated acknowledgement is answered from the stored result exactly when it says the same. */
  lemma RepeatedExactly(batchId: string, c: Case, expected: int, ack: Acknowledgement, correlationId: string)
    requires CaseSound(c) && c.results != []
    ensures Repeated(batchId, c, c.results[0], expected, ack, correlationId) ==
            if SameAgain(c.results[0], expected, ack)
            then Ok(CompletionReply(batchId, Completed, c.version, c.results[0].resultId, ack.result, correlationId, c.results[0].eventId))
            else Err(IdempotencyConflict)
  {
  }

  // ---------------------------------------------------------------- claims

  // Row n of decision j, which matched the version before, offers pool q of the organisation, and the
  // pool has the batch's weight left.
  ghost predicate OfferedTo(p: Checks, db: Db, c: Case, org: string, offer: Option<nat>, j: nat, n: nat, q: string)
    requires c.details.Some?
  {
    && j < |c.decisions| && c.decisions[j].matched && c.decisions[j].version == c.version - 1 && c.decisions[j].epoch == c.epoch
    && offer == Some(n) && n < |c.decisions[j].rows| && c.decisions[j].rows[n].org == org && c.decisions[j].rows[n].isMatched
    && c.decisions[j].rows[n].poolId == Some(q)
    && q in db.pools && db.pools[q].isActive && db.pools[q].owner == org
    && p.weigh(c.details.value) <= db.pools[q].total - db.pools[q].reserved
  }

  // The key and the identifier are not in use.
  predicate FreshKey(db: Db, key: string) { forall k :: 0 <= k < |db.claims| ==> db.claims[k].key != key }

  predicate FreshClaim(db: Db, id: string) { forall k :: 0 <= k < |db.claims| ==> db.claims[k].id != id }

  ghost predicate Claimable(p: Checks, db: Db, c: Case, org: string, offer: Option<nat>) {
    c.details.Some? && exists j: nat, n: nat, q :: OfferedTo(p, db, c, org, offer, j, n, q)
  }

  ghost predicate ClaimMay(p: Checks, db: Db, c: Case, m: Meta, expected: int, epoch: int, o: Oracle, draw: Draw) {
    && FreshKey(db, m.key) && Expects(c, expected) && c.epoch == epoch && c.status == MatchedBatch && c.claim.None?
    && Claimable(p, db, c, ActorOf(m).org, o.offer) && FreshClaim(db, draw.claimId) && HasRoom(c)
  }

  ghost function ClaimRefusal(p: Checks, db: Db, c: Case, m: Meta, expected: int, epoch: int, o: Oracle): Error {
    if !FreshKey(db, m.key) then IdempotencyConflict
    else if !Expects(c, expected) || c.epoch != epoch then StaleVersion
    else if c.status != MatchedBatch || c.claim.Some? then InvalidState
    else if !Claimable(p, db, c, ActorOf(m).org, o.offer) then NotFound
    else Unavailable
  }

  // The claim, its reservation of the batch's weight on the offered pool, and the approved batch.
  ghost predicate ClaimDoes(p: Checks, db: Db, id: string, c: Case, m: Meta, o: Oracle, draw: Draw, after: Db) {
    c.details.Some? &&
    var kg := p.weigh(c.details.value);
    exists j: nat, n: nat, q ::
      && OfferedTo(p, db, c, ActorOf(m).org, o.offer, j, n, q)
      && after == db.(cases := db.cases[id := Onwards(c, ClaimConfirmed, Approved).(claim := Some(draw.claimId))],
                      pools := db.pools[q := db.pools[q].(reserved := db.pools[q].reserved + kg)],
                      claims := db.claims + [Claim(draw.claimId, id, c.epoch, ActorOf(m), m.key, c.decisions[j].id)],
                      reservations := db.reservations + [Reservation(draw.reservationId, id, draw.claimId, q, kg)])
  }

  // The decision the claim rests on is the only one it can rest on.
  lemma OfferIs(p: Checks, db: Db, c: Case, org: string, offer: Option<nat>, j: nat, n: nat, q: string)
    requires CaseSound(c) && c.details.Some? && OfferedTo(p, db, c, org, offer, j, n, q)
    ensures DecisionIndex(c, c.decisions) == Some(j) && RestsOn(c, c.decisions[j]) && Offers(c.decisions[j], org, n)
    ensures PoolTakes(db, q, org, p.weigh(c.details.value))
  {
    assert RestsOn(c, c.decisions[j]);
    var i := DecisionIndex(c, c.decisions);
    if i.Some? { assert c.decisions[i.value].matched; }
  }

  lemma OfferFound(p: Checks, db: Db, c: Case, org: string, offer: Option<nat>)
    requires c.details.Some?
    requires var i := DecisionIndex(c, c.decisions);
             i.Some? && offer.Some? && Offers(c.decisions[i.value], org, offer.value) &&
             PoolTakes(db, c.decisions[i.value].rows[offer.value].poolId.value, org, p.weigh(c.details.value))
    ensures var i := DecisionIndex(c, c.decisions).value;
            OfferedTo(p, db, c, org, offer, i, offer.value, c.decisions[i].rows[offer.value].poolId.value)
  {
  }

  lemma ClaimIdFree(p: Checks, db: Db, id: string, claimId: string)
    requires Inv(p, db) && id in db.cases && db.cases[id].claim.None?
    ensures ClaimTaken(db, claimId, id, db.cases[id].epoch) <==> !FreshClaim(db, claimId)
  {
    forall i | 0 <= i < |db.claims| ensures db.claims[i].batchId != id {
      assert ClaimSound(p, db, db.claims[i], db.reservations[i]);
    }
  }

  // A claim on an offered pool is written, if nothing else refuses it.
  lemma ClaimReaches(p: Checks, db: Db, m: Meta, id: string, expected: int, epoch: int, o: Oracle, draw: Draw, j: nat, n: nat, q: string)
    requires id in db.cases && CaseSound(db.cases[id]) && db.cases[id].details.Some? && FreshKey(db, m.key)
    requires var c := db.cases[id]; Expects(c, expected) && c.epoch == epoch && c.status == MatchedBatch && c.claim.None?
    requires OfferedTo(p, db, db.cases[id], ActorOf(m).org, o.offer, j, n, q)
    ensures ClaimStep(p, db, m, id, expected, epoch, o, draw) ==
            ClaimWrite(db, id, db.cases[id], p.weigh(db.cases[id].details.value), q, m, db.cases[id].decisions[j], draw)
  {
    var c := db.cases[id];
    assert !ClaimKeyExists(db, m.key);
    OfferIs(p, db, c, ActorOf(m).org, o.offer, j, n, q);
  }

  // What the write of a claim does, and when it is refused.
  lemma ClaimWritten(p: Checks, db: Db, m: Meta, id: string, o: Oracle, draw: Draw, j: nat, n: nat, q: string)
    requires Inv(p, db) && id in db.cases && db.cases[id].details.Some?
    requires db.cases[id].status == MatchedBatch && db.cases[id].claim.None?
    requires OfferedTo(p, db, db.cases[id], ActorOf(m).org, o.offer, j, n, q)
    ensures var c := db.cases[id];
            var done := ClaimWrite(db, id, c, p.weigh(c.details.value), q, m, c.decisions[j], draw);
            if FreshClaim(db, draw.claimId) && HasRoom(c)
            then done.Ok? && ClaimDoes(p, db, id, c, m, o, draw, done.value.0) &&
                 done.value.1 == ClaimReply(id, c.version + 1, draw.claimId, draw.reservationId)
            else done == Err(Unavailable)
  {
    ClaimIdFree(p, db, id, draw.claimId);
  }

  // Without an offer the claim finds nothing.
  lemma NoOffer(p: Checks, db: Db, m: Meta, id: string, expected: int, epoch: int, o: Oracle, draw: Draw)
    requires Inv(p, db) && id in db.cases && FreshKey(db, m.key)
    requires var c := db.cases[id];
             && Expects(c, expected) && c.epoch == epoch && c.status == MatchedBatch && c.claim.None?
             && !Claimable(p, db, c, ActorOf(m).org, o.offer)
    ensures ClaimStep(p, db, m, id, expected, epoch, o, draw) == Err(NotFound)
  {
    var c, org := db.cases[id], ActorOf(m).org;
    assert CaseSound(c);
    assert !ClaimKeyExists(db, m.key);
    var i := DecisionIndex(c, c.decisions);
    if i.Some? && o.offer.Some? && Offers(c.decisions[i.value], org, o.offer.value) &&
      PoolTakes(db, c.decisions[i.value].rows[o.offer.value].poolId.value, org, p.weigh(c.details.value))
    {
      OfferFound(p, db, c, org, o.offer);
      assert false;
    }
  }

  lemma ClaimExactly(p: Checks, db: Db, m: Meta, id: string, expected: int, epoch: int, o: Oracle, draw: Draw)
    requires Inv(p, db) && id in db.cases
    ensures var c, done := db.cases[id], ClaimStep(p, db, m, id, expected, epoch, o, draw);
            && (done.Ok? <==> ClaimMay(p, db, c, m, expected, epoch, o, draw))
            && (done.Ok? ==> ClaimDoes(p, db, id, c, m, o, draw, done.value.0) &&
                             done.value.1 == ClaimReply(id, c.version + 1, draw.claimId, draw.reservationId))
            && (done.Err? ==> done.error == ClaimRefusal(p, db, c, m, expected, epoch, o))
  {
    var c := db.cases[id];
    assert CaseSound(c);
    assert ClaimKeyExists(db, m.key) <==> !FreshKey(db, m.key);
    if FreshKey(db, m.key) && Expects(c, expected) && c.epoch == epoch && c.status == MatchedBatch && c.claim.None? {
      if Claimable(p, db, c, ActorOf(m).org, o.offer) {
        var j: nat, n: nat, q :| OfferedTo(p, db, c, ActorOf(m).org, o.offer, j, n, q);
        ClaimReaches(p, db, m, id, expected, epoch, o, draw, j, n, q);
        ClaimWritten(p, db, m, id, o, draw, j, n, q);
      } else {
        NoOffer(p, db, m, id, expected, epoch, o, draw);
      }
    }
  }

  // ---------------------------------------------------------------- selections

  // Another collector had the assignment before, or nobody.
  predicate NewCollector(c: Case, actor: Actor) {
    c.assignments != [] ==> c.assignments[|c.assignments| - 1].collector != actor
  }

  predicate SelectMay(db: Db, c: Case, m: Meta, expected: int, epoch: int, o: Oracle, draw: Draw) {
    && Expects(c, expected) && c.epoch == epoch && c.status == Approved && c.assignment.None? && o.scopeOk
    && NewCollector(c, ActorOf(m)) && draw.assignmentId !in db.assignmentBatch && HasRoom(c)
  }

  function SelectRefusal(c: Case, m: Meta, expected: int, epoch: int, o: Oracle): Error {
    if !Expects(c, expected) || c.epoch != epoch then StaleVersion
    else if c.status != Approved || c.assignment.Some? then InvalidState
    else if !o.scopeOk || !NewCollector(c, ActorOf(m)) then Forbidden
    else Unavailable
  }

  // A new assignment of the batch's claim to the caller, after the ones before it.
  ghost predicate SelectDoes(db: Db, id: string, c: Case, m: Meta, scopeId: string, draw: Draw, after: Db) {
    exists k: nat :: OwnClaim(db, id, c, k) &&
      var n := |c.assignments|;
      var a := Assignment(draw.assignmentId, db.claims[k].id, db.claims[k].recycler.org, ActorOf(m), scopeId, n + 1,
                          if n == 0 then None else Some(c.assignments[n - 1].id), AcceptedAssignment, 1, draw.now);
      after == db.(cases := db.cases[id := Onwards(c, CollectorAssigned, Assigned)
                                             .(assignments := c.assignments + [a], assignment := Some(draw.assignmentId))],
                   assignmentBatch := db.assignmentBatch[draw.assignmentId := id])
  }

  // An approved batch's claim is found, and it is the only one.
  lemma OwnClaimFound(p: Checks, db: Db, id: string)
    requires Inv(p, db) && id in db.cases && db.cases[id].status == Approved
    ensures var c, k := db.cases[id], AcceptedClaimIn(db, id, db.cases[id], |db.claims|);
            k.Some? && OwnClaim(db, id, c, k.value) && db.cases[id].claim == Some(db.claims[k.value].id)
  {
    var c := db.cases[id];
    assert CaseSound(c);
    assert Claimed(db, id);
    var k :| 0 <= k < |db.claims| && db.claims[k].batchId == id;
    assert ClaimSound(p, db, db.claims[k], db.reservations[k]);
    assert db.reservations[k].claimId == db.claims[k].id;
    assert AcceptedClaim(db, id, c, k);
  }

  // The assignment a selection adds, as the transaction builds it.
  lemma SelectedTells(p: Checks, db: Db, id: string, m: Meta, expected: int, epoch: int, scopeId: string, org: string, o: Oracle, draw: Draw)
    requires Inv(p, db) && id in db.cases && o.scopeOk
    requires var c := db.cases[id]; Expects(c, expected) && c.epoch == epoch && c.status == Approved && c.assignment.None?
    ensures var c, done := db.cases[id], Selected(db.cases[id], ActorOf(m), expected, epoch, scopeId, org, draw.assignmentId, draw.now);
            && c.claim.Some?
            && (SelectMay(db, c, m, expected, epoch, o, draw) ==> done.Ok?)
            && (done.Ok? ==>
                  && NewCollector(c, ActorOf(m)) && HasRoom(c)
                  && done.value == Onwards(c, CollectorAssigned, Assigned).(assignments := done.value.assignments,
                                                                             assignment := Some(draw.assignmentId))
                  && done.value.assignments ==
                     c.assignments + [Assignment(draw.assignmentId, c.claim.value, org, ActorOf(m), scopeId, |c.assignments| + 1,
                                                 if c.assignments == [] then None else Some(c.assignments[|c.assignments| - 1].id),
                                                 AcceptedAssignment, 1, draw.now)])
            && (done.Err? ==> done.error == if NewCollector(c, ActorOf(m)) then Unavailable else Forbidden)
  {
    var c := db.cases[id];
    assert CaseSound(c);
    assert AssignmentKnown(c, draw.assignmentId) ==> draw.assignmentId in db.assignmentBatch;
  }

  lemma SelectGoes(p: Checks, db: Db, m: Meta, id: string, expected: int, epoch: int, scopeId: string, o: Oracle, draw: Draw)
    requires Inv(p, db) && id in db.cases && o.scopeOk
    requires var c := db.cases[id]; Expects(c, expected) && c.epoch == epoch && c.status == Approved && c.assignment.None?
    ensures var c, done := db.cases[id], SelectStep(db, m, id, expected, epoch, scopeId, o, draw);
            && (done.Ok? <==> SelectMay(db, c, m, expected, epoch, o, draw))
            && (done.Ok? ==> SelectDoes(db, id, c, m, scopeId, draw, done.value.0) &&
                             done.value.1 == AssignmentReply(draw.assignmentId, AcceptedAssignment, 1))
            && (done.Err? ==> done.error == if NewCollector(c, ActorOf(m)) then Unavailable else Forbidden)
  {
    OwnClaimFound(p, db, id);
    var c, k := db.cases[id], AcceptedClaimIn(db, id, db.cases[id], |db.claims|).value;
    SelectedTells(p, db, id, m, expected, epoch, scopeId, db.claims[k].recycler.org, o, draw);
    assert OwnClaim(db, id, c, k);
  }

  lemma SelectExactly(p: Checks, db: Db, m: Meta, id: string, expected: int, epoch: int, scopeId: string, o: Oracle, draw: Draw)
    requires Inv(p, db) && id in db.cases
    ensures var c, done := db.cases[id], SelectStep(db, m, id, expected, epoch, scopeId, o, draw);
            && (done.Ok? <==> SelectMay(db, c, m, expected, epoch, o, draw))
            && (done.Ok? ==> SelectDoes(db, id, c, m, scopeId, draw, done.value.0) &&
                             done.value.1 == AssignmentReply(draw.assignmentId, AcceptedAssignment, 1))
            && (done.Err? ==> done.error == SelectRefusal(c, m, expected, epoch, o))
  {
    var c := db.cases[id];
    if Expects(c, expected) && c.epoch == epoch && c.status == Approved && c.assignment.None? {
      if o.scopeOk {
        SelectGoes(p, db, m, id, expected, epoch, scopeId, o, draw);
      } else {
        OwnClaimFound(p, db, id);
      }
    }
  }
}
