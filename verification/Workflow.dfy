/** The workflow services: idempotent commands over batches, capacity pools, claims and reservations,
    each in one transaction. */
module Workflow {
  import opened Wrappers
  import opened Vocabulary
  import opened Snapshots
  import opened BatchCase
  import Impact

  datatype Scope = User(actor: Actor) | Service(principal: string)

  // Kilograms in cents; opening is what was reserved before the first claim.
  datatype LivePool = LivePool(owner: string, total: int, opening: int, reserved: int, isActive: bool)

  datatype Claim = Claim(id: string, batchId: string, epoch: int, recycler: Actor, key: string, decisionId: string)

  datatype Reservation = Reservation(id: string, batchId: string, claimId: string, poolId: string, kg: int)

  // The request as its hash covers it: a receipt is normalised before it is hashed.
  datatype Request =
    | CreateDraft(columns: Columns)
    | EditDraft(batchId: string, expected: int, columns: Columns)
    | Submit(batchId: string, expected: int)
    | ClaimBatch(batchId: string, expected: int, epoch: int, notes: string)
    | SelectCollector(batchId: string, expected: int, epoch: int, scopeId: string)
    | AcceptAssignment(assignmentId: string, expected: int)
    | RejectAssignment(assignmentId: string, expected: int, reason: string)
    | RecordHandoff(assignmentId: string, expected: int, pickupAt: int)
    | FailPickup(assignmentId: string, expected: int, reason: string)
    | RecoverCollection(assignmentId: string)
    | VerifyReceipt(batchId: string, expected: int, figures: Impact.Receipt)
    | RecordTreatment(batchId: string, expected: int, request: Impact.TreatmentRequest)
    | Acknowledge(batchId: string, expected: int, ack: Acknowledgement)

  datatype Reply =
    | BatchReply(batchId: string, status: BatchStatus, version: nat, rowId: string)
    | ClaimReply(batchId: string, version: nat, claimId: string, reservationId: string)
    | AssignmentReply(assignmentId: string, state: AssignmentStatus, version: nat)
    | CompletionReply(batchId: string, status: BatchStatus, version: nat, resultId: string,
                      result: Impact.ImpactResult, correlationId: string, eventId: string)

  datatype CommandName =
    | CreateBatchCommand | EditBatchCommand | SubmitBatchCommand | ClaimOpportunityCommand | SelectAssignmentCommand
    | AcceptAssignmentCommand | RejectAssignmentCommand | RecordHandoffCommand | FailPickupCommand
    | RecoverCollectionCommand | VerifyReceiptCommand | RecordTreatmentCommand | AcknowledgeAnalyticsCommand

  function NameOf(r: Request): CommandName {
    match r
    case CreateDraft(_) => CreateBatchCommand
    case EditDraft(_, _, _) => EditBatchCommand
    case Submit(_, _) => SubmitBatchCommand
    case ClaimBatch(_, _, _, _) => ClaimOpportunityCommand
    case SelectCollector(_, _, _, _) => SelectAssignmentCommand
    case AcceptAssignment(_, _) => AcceptAssignmentCommand
    case RejectAssignment(_, _, _) => RejectAssignmentCommand
    case RecordHandoff(_, _, _) => RecordHandoffCommand
    case FailPickup(_, _, _) => FailPickupCommand
    case RecoverCollection(_) => RecoverCollectionCommand
    case VerifyReceipt(_, _, _) => VerifyReceiptCommand
    case RecordTreatment(_, _, _) => RecordTreatmentCommand
    case Acknowledge(_, _, _) => AcknowledgeAnalyticsCommand
  }

  datatype CommandKey = CommandKey(scope: Scope, name: CommandName, key: string)

  datatype Command = Command(request: Request, reply: Reply)

  datatype Db = Db(
    cases: map<string, Case>, assignmentBatch: map<string, string>, pools: map<string, LivePool>,
    claims: seq<Claim>, reservations: seq<Reservation>, commands: map<CommandKey, Command>)

  // The decisions that other components take: weights and validations of texts.
  datatype Checks = Checks(
    weigh: Details -> int,
    submittable: Details -> bool,
    receivable: Impact.Receipt -> bool,
    normalize: (Impact.TreatmentRequest, string) -> Result<Impact.Treatment, Impact.TreatmentError>,
    accepts: (Impact.EventData, Impact.ImpactResult) -> bool,
    ruleVersion: string)

  datatype Acquire = LeaseBusy | LeaseDown | LeaseHeld

  // A claim's transaction commits, commits without the caller seeing it, or is rolled back when the
  // lost lease cancels it.
  datatype Landing = Landed | LandedUnseen | RolledBack

  // actorStill is the actor lookup of resolveReplay, after the transaction.
  datatype Race = Race(acquire: Acquire, landing: Landing, renewalFailed: bool, actorStill: bool)

  // What the model does not compute: actor and scope lookups, the validation of other fields, and
  // which candidate row, if any, the live-configuration join leaves.
  datatype Oracle = Oracle(
    requestOk: bool, actorOk: bool, scopeOk: bool, evidenceOk: bool, offer: Option<nat>, race: Race)

  datatype Meta = Meta(scope: Scope, key: string, correlationId: string)

  // Identifiers and the clock.
  datatype Draw = Draw(batchId: string, claimId: string, reservationId: string, assignmentId: string, rowId: string,
                       eventId: string, now: int)

  function ActorOf(m: Meta): Actor { match m.scope case User(a) => a case Service(p) => Actor("", "") }

  // ---------------------------------------------------------------- one batch

  function WithCase(db: Db, id: string, c: Case): Db { db.(cases := db.cases[id := c]) }

  // A transaction that touches one batch only.
  function Commit(db: Db, id: string, r: Result<Case, Error>, rowId: string): Result<(Db, Reply), Error> {
    match r
    case Err(e) => Err(e)
    case Ok(c) => Ok((WithCase(db, id, c), BatchReply(id, c.status, c.version, rowId)))
  }

  // ---------------------------------------------------------------- claims

  predicate ClaimKeyExists(db: Db, key: string) { exists i :: 0 <= i < |db.claims| && db.claims[i].key == key }

  predicate ClaimTaken(db: Db, id: string, batchId: string, epoch: int) {
    exists i :: 0 <= i < |db.claims| &&
      (db.claims[i].id == id || (db.claims[i].batchId == batchId && db.claims[i].epoch == epoch))
  }

  // The conditions of the match query and of the conditional capacity update on the live pool.
  predicate PoolTakes(db: Db, poolId: string, org: string, kg: int) {
    poolId in db.pools && db.pools[poolId].owner == org && db.pools[poolId].isActive &&
    db.pools[poolId].total - db.pools[poolId].reserved >= kg
  }

  function DecisionIndex(c: Case, s: seq<MatchDecision>): (r: Option<nat>)
    ensures r.Some? ==> r.value < |s| && RestsOn(c, s[r.value])
    ensures r.None? ==> forall i :: 0 <= i < |s| ==> !RestsOn(c, s[i])
  {
    if s == [] then None
    else if RestsOn(c, s[|s| - 1]) then Some(|s| - 1)
    else DecisionIndex(c, s[..|s| - 1])
  }

  function Reserve(db: Db, poolId: string, kg: int): map<string, LivePool>
    requires poolId in db.pools
  {
    db.pools[poolId := db.pools[poolId].(reserved := db.pools[poolId].reserved + kg)]
  }

  // The write of a claim whose guards have passed.
  function ClaimWrite(db: Db, batchId: string, c: Case, kg: int, poolId: string, m: Meta, d: MatchDecision, draw: Draw)
    : Result<(Db, Reply), Error>
    requires poolId in db.pools
  {
    if ClaimTaken(db, draw.claimId, batchId, c.epoch) then Err(Unavailable)
    else match ApprovedBy(c, draw.claimId)
      case Err(e) => Err(e)
      case Ok(next) =>
        Ok((WithCase(db, batchId, next)
              .(pools := Reserve(db, poolId, kg),
                claims := db.claims + [Claim(draw.claimId, batchId, c.epoch, ActorOf(m), m.key, d.id)],
                reservations := db.reservations + [Reservation(draw.reservationId, batchId, draw.claimId, poolId, kg)]),
            ClaimReply(batchId, next.version, draw.claimId, draw.reservationId)))
  }

  function ClaimStep(p: Checks, db: Db, m: Meta, batchId: string, expected: int, epoch: int, o: Oracle, draw: Draw)
    : Result<(Db, Reply), Error>
  {
    if batchId !in db.cases then Err(NotFound)
    else
      var c := db.cases[batchId];
      if ClaimKeyExists(db, m.key) then Err(IdempotencyConflict)
      else if ClaimGuard(c, expected, epoch).Some? then Err(ClaimGuard(c, expected, epoch).value)
      else
        var kg := p.weigh(c.details.value);
        var i := DecisionIndex(c, c.decisions);
        if i.None? || o.offer.None? || !Offers(c.decisions[i.value], ActorOf(m).org, o.offer.value) then Err(NotFound)
        else
          var poolId := c.decisions[i.value].rows[o.offer.value].poolId.value;
          if !PoolTakes(db, poolId, ActorOf(m).org, kg) then Err(NotFound)
          else ClaimWrite(db, batchId, c, kg, poolId, m, c.decisions[i.value], draw)
  }

  // ---------------------------------------------------------------- assignments

  // FindAcceptedClaimReservation: the batch's own claim, with its reservation.
  predicate AcceptedClaim(db: Db, batchId: string, c: Case, i: nat)
    requires i < |db.claims|
  {
    && Some(db.claims[i].id) == c.claim && db.claims[i].batchId == batchId && db.claims[i].epoch == c.epoch
    && exists k :: 0 <= k < |db.reservations| &&
         db.reservations[k].claimId == db.claims[i].id && db.reservations[k].batchId == batchId
  }

  function AcceptedClaimIn(db: Db, batchId: string, c: Case, n: nat): (r: Option<nat>)
    requires n <= |db.claims|
    ensures r.Some? ==> r.value < n && AcceptedClaim(db, batchId, c, r.value)
    ensures r.None? ==> forall i :: 0 <= i < n ==> !AcceptedClaim(db, batchId, c, i)
  {
    if n == 0 then None
    else if AcceptedClaim(db, batchId, c, n - 1) then Some(n - 1)
    else AcceptedClaimIn(db, batchId, c, n - 1)
  }

  function SelectStep(db: Db, m: Meta, batchId: string, expected: int, epoch: int, scopeId: string, o: Oracle, draw: Draw)
    : Result<(Db, Reply), Error>
  {
    if batchId !in db.cases then Err(NotFound)
    else
      var c := db.cases[batchId];
      var i := AcceptedClaimIn(db, batchId, c, |db.claims|);
      if SelectGuard(c, expected, epoch).Some? then Err(SelectGuard(c, expected, epoch).value)
      else if i.None? then Err(NotFound)
      else if !o.scopeOk then Err(Forbidden)
      else
        match Selected(c, ActorOf(m), expected, epoch, scopeId, db.claims[i.value].recycler.org, draw.assignmentId, draw.now)
        case Err(e) => Err(e)
        case Ok(next) =>
          if draw.assignmentId in db.assignmentBatch then Err(Unavailable)
          else Ok((WithCase(db, batchId, next).(assignmentBatch := db.assignmentBatch[draw.assignmentId := batchId]),
                   AssignmentReply(draw.assignmentId, AcceptedAssignment, 1)))
  }

  // The assignment row by its primary key, and its batch.
  function Located(db: Db, assignmentId: string): Option<(string, nat)> {
    if assignmentId !in db.assignmentBatch || db.assignmentBatch[assignmentId] !in db.cases then None
    else
      var batchId := db.assignmentBatch[assignmentId];
      match IndexOfAssignment(db.cases[batchId].assignments, assignmentId)
      case None => None
      case Some(i) => Some((batchId, i))
  }

  function CommitAssignment(db: Db, batchId: string, i: nat, r: Result<Case, Error>): Result<(Db, Reply), Error>
    requires r.Ok? ==> i < |r.value.assignments|
  {
    match r
    case Err(e) => Err(e)
    case Ok(c) =>
      Ok((WithCase(db, batchId, c), AssignmentReply(c.assignments[i].id, c.assignments[i].status, c.assignments[i].version)))
  }

  function AssignmentStep(db: Db, m: Meta, r: Request, draw: Draw): Result<(Db, Reply), Error>
    requires r.AcceptAssignment? || r.RejectAssignment? || r.RecordHandoff? || r.FailPickup? || r.RecoverCollection?
  {
    match Located(db, r.assignmentId)
    case None => Err(NotFound)
    case Some((batchId, i)) =>
      var c, actor := db.cases[batchId], ActorOf(m);
      match r
      case AcceptAssignment(_, expected) => CommitAssignment(db, batchId, i, AcceptedBy(c, i, actor, expected))
      case RejectAssignment(_, expected, _) => CommitAssignment(db, batchId, i, RejectedBy(c, i, actor, expected))
      case RecordHandoff(_, expected, pickupAt) =>
        CommitAssignment(db, batchId, i, PickedUp(c, i, actor, expected, Some(pickupAt), draw.rowId))
      case FailPickup(_, expected, _) => CommitAssignment(db, batchId, i, PickedUp(c, i, actor, expected, None, draw.rowId))
      case RecoverCollection(_) => CommitAssignment(db, batchId, i, Recovered(c, i))
  }

  // ---------------------------------------------------------------- receipts, treatments, acknowledgements

  // ValidateReceiptScope, the part about the current claim.
  predicate ClaimInScope(db: Db, batchId: string, c: Case, org: string) {
    exists i :: 0 <= i < |db.claims| &&
      Some(db.claims[i].id) == c.claim && db.claims[i].batchId == batchId && db.claims[i].epoch == c.epoch &&
      db.claims[i].recycler.org == org
  }

  function CompletionOf(batchId: string, c: Case, done: Completion, result: Impact.ImpactResult, correlationId: string): Reply {
    CompletionReply(batchId, c.status, c.version, done.resultId, result, correlationId, done.eventId)
  }

  // A result already stored for this source event: the same answer, or a conflict. Anomaly codes
  // are compared in canonical order.
  function Repeated(batchId: string, c: Case, done: Completion, expected: int, ack: Acknowledgement, correlationId: string)
    : Result<Reply, Error>
  {
    if done.ack.runId != ack.runId || done.ack.sourceVersion != ack.sourceVersion || expected != done.ack.sourceVersion
    then Err(IdempotencyConflict)
    else if done.ack.input != ack.input || done.ack.result.ruleVersion != ack.result.ruleVersion ||
      done.ack.result.quality != ack.result.quality || done.ack.result.metrics != ack.result.metrics ||
      multiset(done.ack.result.anomalies) != multiset(ack.result.anomalies) then Err(IdempotencyConflict)
    else if c.status != Completed then Err(InvalidState)
    else Ok(CompletionOf(batchId, c, done, ack.result, correlationId))
  }

  // Recorded writes a command row; Echoed answers from a stored result and writes nothing.
  datatype Effect = Recorded(db: Db, reply: Reply) | Echoed(reply: Reply)

  function AcknowledgeStep(p: Checks, db: Db, m: Meta, batchId: string, expected: int, ack: Acknowledgement, draw: Draw)
    : Result<Effect, Error>
  {
    if batchId !in db.cases then Err(NotFound)
    else
      var c := db.cases[batchId];
      if c.results != [] && c.results[0].ack.sourceEventId == ack.sourceEventId then
        (match Repeated(batchId, c, c.results[0], expected, ack, m.correlationId)
         case Err(e) => Err(e)
         case Ok(reply) => Ok(Echoed(reply)))
      else
        match CompletedBy(c, expected, ack, p.accepts, draw.rowId, draw.eventId, m.correlationId)
        case Err(e) => Err(e)
        case Ok(next) =>
          Ok(Recorded(WithCase(db, batchId, next),
                      CompletionOf(batchId, next, next.results[|next.results| - 1], ack.result, m.correlationId)))
  }

  // ---------------------------------------------------------------- the transaction of a command

  function Lifted(r: Result<(Db, Reply), Error>): Result<Effect, Error> {
    match r case Err(e) => Err(e) case Ok((db, reply)) => Ok(Recorded(db, reply))
  }

  function BatchStep(p: Checks, db: Db, m: Meta, r: Request, o: Oracle, draw: Draw): Result<(Db, Reply), Error>
    requires r.EditDraft? || r.Submit? || r.VerifyReceipt? || r.RecordTreatment?
  {
    if r.batchId !in db.cases then Err(NotFound)
    else
      var id, c, actor := r.batchId, db.cases[r.batchId], ActorOf(m);
      match r
      case EditDraft(_, expected, columns) => Commit(db, id, Edited(c, actor, expected, columns), "")
      case Submit(_, expected) => Commit(db, id, SubmittedAt(c, actor, expected, p.submittable, draw.now), draw.eventId)
      case VerifyReceipt(_, expected, figures) =>
        Commit(db, id, ReceiptTaken(c, actor, expected, ClaimInScope(db, id, c, actor.org), figures, draw.rowId), draw.rowId)
      case RecordTreatment(_, expected, request) =>
        var treatment := if c.receipt.Some? then p.normalize(request, c.receipt.value.figures.weightKg)
                         else Err(Impact.ReceivedWeightInvalid);
        Commit(db, id, Treated(c, id, actor, expected, ClaimInScope(db, id, c, actor.org), o.evidenceOk, treatment,
                               p.ruleVersion, draw.rowId, draw.eventId, m.correlationId), draw.rowId)
  }

  function Execute(p: Checks, db: Db, m: Meta, r: Request, o: Oracle, draw: Draw): Result<Effect, Error> {
    match r
    case CreateDraft(columns) =>
      if draw.batchId in db.cases then Err(Unavailable)
      else
        Ok(Recorded(WithCase(db, draw.batchId, Created(ActorOf(m), columns)), BatchReply(draw.batchId, Draft, 1, "")))
    case ClaimBatch(batchId, expected, epoch, _) => Lifted(ClaimStep(p, db, m, batchId, expected, epoch, o, draw))
    case SelectCollector(batchId, expected, epoch, scopeId) =>
      Lifted(SelectStep(db, m, batchId, expected, epoch, scopeId, o, draw))
    case Acknowledge(batchId, expected, ack) => AcknowledgeStep(p, db, m, batchId, expected, ack, draw)
    case EditDraft(_, _, _) => Lifted(BatchStep(p, db, m, r, o, draw))
    case Submit(_, _) => Lifted(BatchStep(p, db, m, r, o, draw))
    case VerifyReceipt(_, _, _) => Lifted(BatchStep(p, db, m, r, o, draw))
    case RecordTreatment(_, _, _) => Lifted(BatchStep(p, db, m, r, o, draw))
    case _ => Lifted(AssignmentStep(db, m, r, draw))
  }

  // ---------------------------------------------------------------- idempotency

  // Claims and collector commands check the actor before the replay, the others after it.
  predicate ActorFirst(r: Request) {
    r.ClaimBatch? || r.SelectCollector? || r.AcceptAssignment? || r.RejectAssignment? || r.RecordHandoff? || r.FailPickup?
  }

  predicate NeedsActor(r: Request) { ActorFirst(r) || r.VerifyReceipt? || r.RecordTreatment? }

  datatype Answer = Answer(reply: Reply, replayed: bool)

  function KeyOf(m: Meta, r: Request): CommandKey {
    CommandKey(m.scope, NameOf(r), if r.RecoverCollection? then "recover-" + r.assignmentId else m.key)
  }

  // normalizeReceiptRequest gives exactly the receivable figures.
  predicate Presentable(p: Checks, r: Request) { r.VerifyReceipt? ==> p.receivable(r.figures) }

  // The transaction of the first call of a key: execute, and keep the result with the request.
  function Transacted(p: Checks, db: Db, m: Meta, r: Request, o: Oracle, draw: Draw): (Db, Result<Answer, Error>) {
    match Execute(p, db, m, r, o, draw)
    case Err(e) => (db, Err(e))
    case Ok(Echoed(reply)) => (db, Ok(Answer(reply, true)))
    case Ok(Recorded(after, reply)) =>
      (after.(commands := db.commands[KeyOf(m, r) := Command(r, reply)]), Ok(Answer(reply, false)))
  }

  // ---------------------------------------------------------------- a claim's lease

  // What Claim holds after the transaction and the renewal loop have ended.
  function Reported(race: Race, own: Result<Answer, Error>): Result<Answer, Error> {
    match own
    case Err(e) => if race.landing == RolledBack then Err(Unavailable) else Err(e)
    case Ok(_) => if race.landing == Landed && !race.renewalFailed then own else Err(Unavailable)
  }

  // The durable command row decides what an error means.
  function ResolveReplay(db: Db, m: Meta, r: Request, actorOk: bool): Result<Option<Reply>, Error> {
    if !actorOk then Err(Forbidden)
    else if KeyOf(m, r) !in db.commands then Ok(None)
    else if db.commands[KeyOf(m, r)].request != r then Err(IdempotencyConflict)
    else Ok(Some(db.commands[KeyOf(m, r)].reply))
  }

  // The answer, when resolveReplay reads this state.
  function Settled(reported: Result<Answer, Error>, db: Db, m: Meta, r: Request, actorOk: bool): Result<Answer, Error> {
    match reported
    case Ok(answer) => Ok(answer)
    case Err(e) =>
      match ResolveReplay(db, m, r, actorOk)
      case Err(f) => Err(f)
      case Ok(None) => Err(e)
      case Ok(Some(reply)) => Ok(Answer(reply, true))
  }

  // The state a claim's transaction leaves.
  function Left(race: Race, before: Db, done: Db): Db { if race.landing == RolledBack then before else done }

  function LeasedClaim(p: Checks, db: Db, m: Meta, r: Request, o: Oracle, draw: Draw): (Db, Result<Answer, Error>) {
    match o.race.acquire
    case LeaseBusy => (db, Err(Busy))
    case LeaseDown => (db, Err(Unavailable))
    case LeaseHeld =>
      var (done, own) := Transacted(p, db, m, r, o, draw);
      var after := Left(o.race, db, done);
      (after, Settled(Reported(o.race, own), after, m, r, o.race.actorStill))
  }

  function FirstCall(p: Checks, db: Db, m: Meta, r: Request, o: Oracle, draw: Draw): (Db, Result<Answer, Error>) {
    if r.ClaimBatch? then LeasedClaim(p, db, m, r, o, draw) else Transacted(p, db, m, r, o, draw)
  }

  // What a call must pass before its key is looked up.
  predicate Admitted(p: Checks, r: Request, o: Oracle) {
    o.requestOk && Presentable(p, r) && (ActorFirst(r) ==> o.actorOk)
  }

  function Call(p: Checks, db: Db, m: Meta, r: Request, o: Oracle, draw: Draw): (Db, Result<Answer, Error>) {
    if !o.requestOk || !Presentable(p, r) then (db, Err(ValidationFailed))
    else if ActorFirst(r) && !o.actorOk then (db, Err(Forbidden))
    else if KeyOf(m, r) in db.commands then
      if db.commands[KeyOf(m, r)].request != r then (db, Err(IdempotencyConflict))
      else (db, Ok(Answer(db.commands[KeyOf(m, r)].reply, true)))
    else if NeedsActor(r) && !o.actorOk then (db, Err(Forbidden))
    else FirstCall(p, db, m, r, o, draw)
  }
}
