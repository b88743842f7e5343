/** Commands in histories: what a command changes it may change, and it fails for the first condition
    it does not meet. */
module Authority {
  import opened Wrappers
  import opened Vocabulary
  import opened BatchCase
  import opened CaseInvariant
  import opened Workflow
  import opened WorkflowRuns
  import opened WorkflowHistories
  import opened Permissions

  // ---------------------------------------------------------------- one transaction

  // The stored result answers a repeated acknowledgement of its source event.
  predicate Repeats(db: Db, r: Request) {
    && r.Acknowledge? && r.batchId in db.cases && db.cases[r.batchId].results != []
    && db.cases[r.batchId].results[0].ack.sourceEventId == r.ack.sourceEventId
  }

  predicate OnAssignment(r: Request) { ByCollector(r) || r.RecoverCollection? }

  ghost predicate MayOnRow(db: Db, m: Meta, r: Request, id: string, i: nat)
    requires OnAssignment(r)
  {
    Row(db, id, i, r.assignmentId) &&
    if ByCollector(r) then CollectorMay(db.cases[id], i, ActorOf(m), r) else RecoverMay(db.cases[id], i)
  }

  // Everything the caller, the batch and the request must meet.
  ghost predicate Permitted(p: Checks, db: Db, m: Meta, r: Request, o: Oracle, draw: Draw) {
    match r
    case CreateDraft(_) => draw.batchId !in db.cases
    case EditDraft(id, expected, _) => id in db.cases && DonorMay(db.cases[id], ActorOf(m), expected)
    case Submit(id, expected) =>
      id in db.cases && DonorMay(db.cases[id], ActorOf(m), expected) && Submittable(p, db.cases[id], draw.now)
    case ClaimBatch(id, expected, epoch, _) => id in db.cases && ClaimMay(p, db, db.cases[id], m, expected, epoch, o, draw)
    case SelectCollector(id, expected, epoch, _) => id in db.cases && SelectMay(db, db.cases[id], m, expected, epoch, o, draw)
    case VerifyReceipt(id, expected, _) => id in db.cases && ReceiptMay(db, id, db.cases[id], ActorOf(m), expected)
    case RecordTreatment(id, expected, request) =>
      id in db.cases && TreatMay(p, db, id, db.cases[id], ActorOf(m), expected, request, o.evidenceOk)
    case Acknowledge(id, expected, ack) => id in db.cases && AckMay(p, db.cases[id], expected, ack)
    case _ => exists id, i: nat :: MayOnRow(db, m, r, id, i)
  }

  ghost predicate DoesOnRow(db: Db, r: Request, id: string, i: nat, draw: Draw, after: Db, reply: Reply)
    requires OnAssignment(r)
  {
    && Row(db, id, i, r.assignmentId) && id in after.cases && OnlyCase(db, after, id, after.cases[id])
    && (if ByCollector(r) then CollectorDoes(db.cases[id], i, r, draw.rowId, after.cases[id])
        else RecoverDoes(db.cases[id], after.cases[id]))
    && reply == if ByCollector(r) then AssignmentReply(r.assignmentId, StatusAfter(r), db.cases[id].assignments[i].version + 1)
                else AssignmentReply(r.assignmentId, db.cases[id].assignments[i].status, db.cases[id].assignments[i].version)
  }

  // The batch's row after a command that writes it alone.
  ghost predicate DoesOnBatch(p: Checks, id: string, c: Case, m: Meta, r: Request, draw: Draw, next: Case, reply: Reply)
    requires r.EditDraft? || r.Submit? || r.VerifyReceipt? || r.RecordTreatment? || r.Acknowledge?
  {
    match r
    case EditDraft(_, _, given) => EditDoes(c, given, next) && reply == BatchReply(id, Draft, c.version + 1, "")
    case Submit(_, _) => SubmitDoes(p, c, draw.now, next) && reply == BatchReply(id, Submitted, c.version + 1, draw.eventId)
    case VerifyReceipt(_, _, figures) =>
      ReceiptDoes(c, ActorOf(m), figures, draw.rowId, next) && reply == BatchReply(id, Verified, c.version + 1, draw.rowId)
    case RecordTreatment(_, _, request) =>
      TreatDoes(p, id, c, m, request, draw, next) && reply == BatchReply(id, Recycled, c.version + 1, draw.rowId)
    case Acknowledge(_, _, ack) =>
      && AckDoes(c, ack, m, draw, next)
      && reply == CompletionReply(id, Completed, c.version + 1, draw.rowId, ack.result, m.correlationId, draw.eventId)
  }

  // The state and the reply of a command that did its work.
  ghost predicate Does(p: Checks, db: Db, m: Meta, r: Request, o: Oracle, draw: Draw, after: Db, reply: Reply) {
    match r
    case CreateDraft(given) =>
      && draw.batchId in after.cases && OnlyCase(db, after, draw.batchId, after.cases[draw.batchId])
      && CreateDoes(after.cases[draw.batchId], ActorOf(m), given) && reply == BatchReply(draw.batchId, Draft, 1, "")
    case ClaimBatch(id, _, _, _) =>
      && id in db.cases && ClaimDoes(p, db, id, db.cases[id], m, o, draw, after)
      && reply == ClaimReply(id, db.cases[id].version + 1, draw.claimId, draw.reservationId)
    case SelectCollector(id, _, _, scopeId) =>
      && id in db.cases && SelectDoes(db, id, db.cases[id], m, scopeId, draw, after)
      && reply == AssignmentReply(draw.assignmentId, AcceptedAssignment, 1)
    case EditDraft(id, _, _) => DoesOne(p, db, id, m, r, draw, after, reply)
    case Submit(id, _) => DoesOne(p, db, id, m, r, draw, after, reply)
    case VerifyReceipt(id, _, _) => DoesOne(p, db, id, m, r, draw, after, reply)
    case RecordTreatment(id, _, _) => DoesOne(p, db, id, m, r, draw, after, reply)
    case Acknowledge(id, _, _) => DoesOne(p, db, id, m, r, draw, after, reply)
    case _ => exists id, i: nat :: DoesOnRow(db, r, id, i, draw, after, reply)
  }

  ghost predicate DoesOne(p: Checks, db: Db, id: string, m: Meta, r: Request, draw: Draw, after: Db, reply: Reply)
    requires r.EditDraft? || r.Submit? || r.VerifyReceipt? || r.RecordTreatment? || r.Acknowledge?
  {
    && id in db.cases && id in after.cases && OnlyCase(db, after, id, after.cases[id])
    && DoesOnBatch(p, id, db.cases[id], m, r, draw, after.cases[id], reply)
  }

  ghost function RowRefusal(db: Db, m: Meta, r: Request, id: string, i: nat): Error
    requires OnAssignment(r) && Row(db, id, i, r.assignmentId)
  {
    if ByCollector(r) then CollectorRefusal(db.cases[id], i, ActorOf(m), r) else RecoverRefusal(db.cases[id], i)
  }

  ghost predicate RefusedRow(db: Db, m: Meta, r: Request, e: Error)
    requires OnAssignment(r)
  {
    && ((forall id, i: nat :: !Row(db, id, i, r.assignmentId)) ==> e == NotFound)
    && forall id, i: nat :: Row(db, id, i, r.assignmentId) ==> e == RowRefusal(db, m, r, id, i)
  }

  // The error of the first condition that is not met.
  ghost predicate Refused(p: Checks, db: Db, m: Meta, r: Request, o: Oracle, draw: Draw, e: Error) {
    match r
    case CreateDraft(_) => e == Unavailable
    case EditDraft(id, expected, _) => e == if id in db.cases then DonorRefusal(db.cases[id], ActorOf(m), expected, true) else NotFound
    case Submit(id, expected) =>
      e == if id in db.cases then DonorRefusal(db.cases[id], ActorOf(m), expected, Submittable(p, db.cases[id], draw.now)) else NotFound
    case ClaimBatch(id, expected, epoch, _) =>
      e == if id in db.cases then ClaimRefusal(p, db, db.cases[id], m, expected, epoch, o) else NotFound
    case SelectCollector(id, expected, epoch, _) =>
      e == if id in db.cases then SelectRefusal(db.cases[id], m, expected, epoch, o) else NotFound
    case VerifyReceipt(id, expected, _) =>
      e == if id in db.cases then FacilityRefusal(db, id, db.cases[id], ActorOf(m), expected, Collected) else NotFound
    case RecordTreatment(id, expected, request) =>
      e == if id in db.cases then TreatRefusal(p, db, id, db.cases[id], ActorOf(m), expected, request, o.evidenceOk) else NotFound
    case Acknowledge(id, expected, ack) =>
      e == if id !in db.cases then NotFound
           else if Repeats(db, r) then IdempotencyConflict
           else AckRefusal(p, db.cases[id], expected, ack)
    case _ => RefusedRow(db, m, r, e)
  }

  // ---------------------------------------------------------------- assignments

  lemma RowLocated(p: Checks, db: Db, id: string, i: nat, assignmentId: string)
    requires Inv(p, db) && Row(db, id, i, assignmentId)
    ensures Located(db, assignmentId) == Some((id, i))
  {
    assert CaseSound(db.cases[id]);
  }

  lemma LocatedRow(db: Db, assignmentId: string)
    requires Located(db, assignmentId).Some?
    ensures var (id, i) := Located(db, assignmentId).value; Row(db, id, i, assignmentId)
  {
  }

  lemma RowTells(p: Checks, db: Db, m: Meta, r: Request, draw: Draw, id: string, i: nat)
    requires Inv(p, db) && OnAssignment(r) && Row(db, id, i, r.assignmentId) && Located(db, r.assignmentId) == Some((id, i))
    ensures var done := AssignmentStep(db, m, r, draw);
            && (done.Ok? <==> MayOnRow(db, m, r, id, i))
            && (done.Ok? ==> DoesOnRow(db, r, id, i, draw, done.value.0, done.value.1))
            && (done.Err? ==> done.error == RowRefusal(db, m, r, id, i))
  {
    var c := db.cases[id];
    assert CaseSound(c);
    if ByCollector(r) { CollectorExactly(c, i, ActorOf(m), r, draw.rowId); } else { RecoverExactly(c, i); }
    assert AssignmentStep(db, m, r, draw) == CommitAssignment(db, id, i, AssignmentNext(c, i, ActorOf(m), r, draw.rowId));
  }

  lemma AssignmentTells(p: Checks, db: Db, m: Meta, r: Request, draw: Draw)
    requires Inv(p, db) && OnAssignment(r)
    ensures var done := AssignmentStep(db, m, r, draw);
            && (done.Ok? <==> exists id, i: nat :: MayOnRow(db, m, r, id, i))
            && (done.Ok? ==> exists id, i: nat :: DoesOnRow(db, r, id, i, draw, done.value.0, done.value.1))
            && (done.Err? ==> RefusedRow(db, m, r, done.error))
  {
    forall id, i: nat | Row(db, id, i, r.assignmentId) ensures Located(db, r.assignmentId) == Some((id, i)) {
      RowLocated(p, db, id, i, r.assignmentId);
    }
    if Located(db, r.assignmentId).Some? {
      var (id, i) := Located(db, r.assignmentId).value;
      LocatedRow(db, r.assignmentId);
      RowTells(p, db, m, r, draw, id, i);
    }
  }

  // ---------------------------------------------------------------- every command

  // Whether the transaction writes, what it writes, and why it does not.
  ghost predicate Tells(p: Checks, db: Db, m: Meta, r: Request, o: Oracle, draw: Draw, done: Result<Effect, Error>) {
    match done
    case Ok(Recorded(after, reply)) => Permitted(p, db, m, r, o, draw) && Does(p, db, m, r, o, draw, after, reply)
    case Ok(Echoed(reply)) =>
      && Repeats(db, r) && !Permitted(p, db, m, r, o, draw) && SameAgain(db.cases[r.batchId].results[0], r.expected, r.ack)
      && reply == CompletionReply(r.batchId, Completed, db.cases[r.batchId].version, db.cases[r.batchId].results[0].resultId,
                                  r.ack.result, m.correlationId, db.cases[r.batchId].results[0].eventId)
    case Err(e) => !Permitted(p, db, m, r, o, draw) && Refused(p, db, m, r, o, draw, e)
  }

  // A transaction on one batch, once its own condition, effect and error are known.
  lemma OneTells(p: Checks, db: Db, m: Meta, r: Request, o: Oracle, draw: Draw, next: Result<Case, Error>, reply: Reply)
    requires (r.EditDraft? || r.Submit? || r.VerifyReceipt? || r.RecordTreatment?) && r.batchId in db.cases
    requires next.Ok? <==> Permitted(p, db, m, r, o, draw)
    requires next.Ok? ==> DoesOnBatch(p, r.batchId, db.cases[r.batchId], m, r, draw, next.value, reply)
    requires next.Err? ==> Refused(p, db, m, r, o, draw, next.error)
    ensures Tells(p, db, m, r, o, draw, match next case Err(e) => Err(e) case Ok(c) => Ok(Recorded(WithCase(db, r.batchId, c), reply)))
  {
  }

  lemma BatchIs(p: Checks, db: Db, m: Meta, r: Request, o: Oracle, draw: Draw, next: Result<Case, Error>, reply: Reply)
    requires (r.EditDraft? || r.Submit? || r.VerifyReceipt? || r.RecordTreatment?) && r.batchId in db.cases
    requires next == BatchNext(p, db, m, r, o, draw)
    requires next.Ok? ==>
               reply == BatchReply(r.batchId, next.value.status, next.value.version,
                                   if r.EditDraft? then "" else if r.Submit? then draw.eventId else draw.rowId)
    ensures Lifted(BatchStep(p, db, m, r, o, draw)) ==
            match next case Err(e) => Err(e) case Ok(c) => Ok(Recorded(WithCase(db, r.batchId, c), reply))
  {
  }

  function ReplyAfter(id: string, next: Result<Case, Error>, rowId: string): Reply {
    match next case Err(_) => BatchReply(id, Draft, 0, rowId) case Ok(c) => BatchReply(id, c.status, c.version, rowId)
  }

  lemma DraftTells(p: Checks, db: Db, m: Meta, r: Request, o: Oracle, draw: Draw)
    requires Inv(p, db) && (r.EditDraft? || r.Submit?) && r.batchId in db.cases
    ensures Tells(p, db, m, r, o, draw, Lifted(BatchStep(p, db, m, r, o, draw)))
  {
    var c, next := db.cases[r.batchId], BatchNext(p, db, m, r, o, draw);
    var reply := ReplyAfter(r.batchId, next, if r.EditDraft? then "" else draw.eventId);
    if r.EditDraft? {
      EditExactly(c, ActorOf(m), r.expected, r.columns);
    } else {
      SubmitExactly(p, c, ActorOf(m), r.expected, draw.now);
    }
    OneTells(p, db, m, r, o, draw, next, reply);
    BatchIs(p, db, m, r, o, draw, next, reply);
  }

  lemma ReceiptTells(p: Checks, db: Db, m: Meta, r: Request, o: Oracle, draw: Draw)
    requires Inv(p, db) && r.VerifyReceipt? && r.batchId in db.cases
    ensures Tells(p, db, m, r, o, draw, Lifted(BatchStep(p, db, m, r, o, draw)))
  {
    var next := BatchNext(p, db, m, r, o, draw);
    ReceiptExactly(p, db, r.batchId, ActorOf(m), r.expected, r.figures, draw.rowId);
    OneTells(p, db, m, r, o, draw, next, ReplyAfter(r.batchId, next, draw.rowId));
    BatchIs(p, db, m, r, o, draw, next, ReplyAfter(r.batchId, next, draw.rowId));
  }

  lemma TreatmentTells(p: Checks, db: Db, m: Meta, r: Request, o: Oracle, draw: Draw)
    requires Inv(p, db) && r.RecordTreatment? && r.batchId in db.cases
    ensures Tells(p, db, m, r, o, draw, Lifted(BatchStep(p, db, m, r, o, draw)))
  {
    var next := BatchNext(p, db, m, r, o, draw);
    TreatExactly(p, db, r.batchId, m, r.expected, r.request, o, draw, next);
    OneTells(p, db, m, r, o, draw, next, ReplyAfter(r.batchId, next, draw.rowId));
    BatchIs(p, db, m, r, o, draw, next, ReplyAfter(r.batchId, next, draw.rowId));
  }

  lemma BatchTells(p: Checks, db: Db, m: Meta, r: Request, o: Oracle, draw: Draw)
    requires Inv(p, db) && (r.EditDraft? || r.Submit? || r.VerifyReceipt? || r.RecordTreatment?)
    ensures Tells(p, db, m, r, o, draw, Lifted(BatchStep(p, db, m, r, o, draw)))
  {
    if r.batchId in db.cases {
      match r
      case EditDraft(_, _, _) => DraftTells(p, db, m, r, o, draw);
      case Submit(_, _) => DraftTells(p, db, m, r, o, draw);
      case VerifyReceipt(_, _, _) => ReceiptTells(p, db, m, r, o, draw);
      case RecordTreatment(_, _, _) => TreatmentTells(p, db, m, r, o, draw);
    }
  }

  lemma RepeatTells(p: Checks, db: Db, m: Meta, r: Request, o: Oracle, draw: Draw)
    requires r.Acknowledge? && r.batchId in db.cases && CaseSound(db.cases[r.batchId]) && Repeats(db, r)
    ensures Tells(p, db, m, r, o, draw, AcknowledgeStep(p, db, m, r.batchId, r.expected, r.ack, draw))
  {
    RepeatedExactly(r.batchId, db.cases[r.batchId], r.expected, r.ack, m.correlationId);
  }

  lemma FirstAckTells(p: Checks, db: Db, m: Meta, r: Request, o: Oracle, draw: Draw, c: Case, next: Result<Case, Error>)
    requires r.Acknowledge? && r.batchId in db.cases && db.cases[r.batchId] == c && !Repeats(db, r)
    requires next == CompletedBy(c, r.expected, r.ack, p.accepts, draw.rowId, draw.eventId, m.correlationId)
    requires next.Ok? <==> AckMay(p, c, r.expected, r.ack)
    requires next.Ok? ==> AckDoes(c, r.ack, m, draw, next.value)
    requires next.Err? ==> next.error == AckRefusal(p, c, r.expected, r.ack)
    ensures Tells(p, db, m, r, o, draw, AcknowledgeStep(p, db, m, r.batchId, r.expected, r.ack, draw))
  {
    if next.Ok? {
      assert next.value.results == [Completion(draw.rowId, r.ack, draw.eventId, m.correlationId)];
    }
  }

  lemma AcknowledgeTells(p: Checks, db: Db, m: Meta, r: Request, o: Oracle, draw: Draw)
    requires Inv(p, db) && r.Acknowledge?
    ensures Tells(p, db, m, r, o, draw, AcknowledgeStep(p, db, m, r.batchId, r.expected, r.ack, draw))
  {
    if r.batchId in db.cases {
      var c := db.cases[r.batchId];
      assert CaseSound(c);
      if Repeats(db, r) {
        RepeatTells(p, db, m, r, o, draw);
      } else {
        var next := CompletedBy(c, r.expected, r.ack, p.accepts, draw.rowId, draw.eventId, m.correlationId);
        AckExactly(p, c, r.expected, r.ack, m, draw, next);
        FirstAckTells(p, db, m, r, o, draw, c, next);
      }
    }
  }

  lemma ClaimTells(p: Checks, db: Db, m: Meta, r: Request, o: Oracle, draw: Draw)
    requires Inv(p, db) && r.ClaimBatch?
    ensures Tells(p, db, m, r, o, draw, Lifted(ClaimStep(p, db, m, r.batchId, r.expected, r.epoch, o, draw)))
  {
    if r.batchId in db.cases { ClaimExactly(p, db, m, r.batchId, r.expected, r.epoch, o, draw); }
  }

  lemma SelectTells(p: Checks, db: Db, m: Meta, r: Request, o: Oracle, draw: Draw)
    requires Inv(p, db) && r.SelectCollector?
    ensures Tells(p, db, m, r, o, draw, Lifted(SelectStep(db, m, r.batchId, r.expected, r.epoch, r.scopeId, o, draw)))
  {
    if r.batchId in db.cases { SelectExactly(p, db, m, r.batchId, r.expected, r.epoch, r.scopeId, o, draw); }
  }

  lemma CreateTells(p: Checks, db: Db, m: Meta, r: Request, o: Oracle, draw: Draw)
    requires r.CreateDraft?
    ensures Tells(p, db, m, r, o, draw, Execute(p, db, m, r, o, draw))
  {
  }

  lemma RowsTell(p: Checks, db: Db, m: Meta, r: Request, o: Oracle, draw: Draw)
    requires Inv(p, db) && OnAssignment(r)
    ensures Tells(p, db, m, r, o, draw, Lifted(AssignmentStep(db, m, r, draw)))
  {
    AssignmentTells(p, db, m, r, draw);
  }

  /** The transaction of a command, for every request: it writes exactly when the caller is allowed to
      and the rows let it, it writes exactly what the command says, and otherwise the first condition
      that is not met names the error. */
  lemma ExecuteTells(p: Checks, db: Db, m: Meta, r: Request, o: Oracle, draw: Draw)
    requires Inv(p, db)
    ensures Tells(p, db, m, r, o, draw, Execute(p, db, m, r, o, draw))
  {
    if r.CreateDraft? {
      CreateTells(p, db, m, r, o, draw);
    } else if r.ClaimBatch? {
      ClaimTells(p, db, m, r, o, draw);
    } else if r.SelectCollector? {
      SelectTells(p, db, m, r, o, draw);
    } else if r.Acknowledge? {
      AcknowledgeTells(p, db, m, r, o, draw);
    } else if OnAssignment(r) {
      RowsTell(p, db, m, r, o, draw);
    } else {
      BatchTells(p, db, m, r, o, draw);
    }
  }

  // ---------------------------------------------------------------- calls

  // What is checked before the transaction: the request, the figures of a receipt, the caller, and for
  // a claim its lease.
  predicate Vetted(p: Checks, r: Request, o: Oracle) {
    && o.requestOk && (r.VerifyReceipt? ==> p.receivable(r.figures))
    && (!r.CreateDraft? && !r.EditDraft? && !r.Submit? && !r.RecoverCollection? && !r.Acknowledge? ==> o.actorOk)
    && (r.ClaimBatch? ==> o.race.acquire == LeaseHeld)
  }

  // The lease of a claim holds to the end, and its caller is still there.
  predicate Calm(r: Request, o: Oracle) { r.ClaimBatch? ==> o.race.landing == Landed && !o.race.renewalFailed && o.race.actorStill }

  // Two calls have one key exactly when caller, command and key are the same; a recovery's key is its
  // assignment.
  predicate SameCommand(r: Request, s: Request) {
    match r
    case CreateDraft(_) => s.CreateDraft?
    case EditDraft(_, _, _) => s.EditDraft?
    case Submit(_, _) => s.Submit?
    case ClaimBatch(_, _, _, _) => s.ClaimBatch?
    case SelectCollector(_, _, _, _) => s.SelectCollector?
    case AcceptAssignment(_, _) => s.AcceptAssignment?
    case RejectAssignment(_, _, _) => s.RejectAssignment?
    case RecordHandoff(_, _, _) => s.RecordHandoff?
    case FailPickup(_, _, _) => s.FailPickup?
    case RecoverCollection(_) => s.RecoverCollection?
    case VerifyReceipt(_, _, _) => s.VerifyReceipt?
    case RecordTreatment(_, _, _) => s.RecordTreatment?
    case Acknowledge(_, _, _) => s.Acknowledge?
  }

  lemma KeysApart(m: Meta, r: Request, n: Meta, s: Request)
    ensures KeyOf(m, r) == KeyOf(n, s) <==>
            && m.scope == n.scope && SameCommand(r, s)
            && if r.RecoverCollection? && s.RecoverCollection? then r.assignmentId == s.assignmentId else m.key == n.key
  {
    if r.RecoverCollection? && s.RecoverCollection? && KeyOf(m, r) == KeyOf(n, s) {
      assert r.assignmentId == ("recover-" + r.assignmentId)[8..];
      assert s.assignmentId == ("recover-" + s.assignmentId)[8..];
    }
  }

  /** A call that is not vetted, or finds its lease taken, changes nothing and says why. */
  lemma UnvettedRefused(p: Checks, db: Db, m: Meta, r: Request, o: Oracle, draw: Draw)
    requires KeyOf(m, r) !in db.commands && !Vetted(p, r, o)
    ensures Call(p, db, m, r, o, draw).0 == db
    ensures Call(p, db, m, r, o, draw).1 ==
            Err(if !o.requestOk || (r.VerifyReceipt? && !p.receivable(r.figures)) then ValidationFailed
                else if !r.ClaimBatch? || !o.actorOk then Forbidden
                else if o.race.acquire == LeaseBusy then Busy
                else Unavailable)
  {
  }

  /** The first call of a key: it writes and answers exactly when the command is permitted. */
  lemma FirstCallTells(p: Checks, db: Db, m: Meta, r: Request, o: Oracle, draw: Draw)
    requires Inv(p, db) && KeyOf(m, r) !in db.commands && Vetted(p, r, o) && Calm(r, o)
    ensures var (after, answer) := Call(p, db, m, r, o, draw);
            && (Permitted(p, db, m, r, o, draw) ==>
                  && answer.Ok? && !answer.value.replayed
                  && Does(p, db, m, r, o, draw, after.(commands := db.commands), answer.value.reply)
                  && after.commands == db.commands[KeyOf(m, r) := Command(r, answer.value.reply)])
            && (!Permitted(p, db, m, r, o, draw) ==>
                  && after == db
                  && (answer.Err? ==> Refused(p, db, m, r, o, draw, answer.error))
                  && (answer.Ok? ==> answer.value.replayed && Repeats(db, r)))
  {
    ExecuteTells(p, db, m, r, o, draw);
    var done := Execute(p, db, m, r, o, draw);
    if done.Ok? && done.value.Recorded? {
      ExecuteKeeps(p, db, m, r, o, draw);
      CallAnswers(p, db, m, r, o, draw, done.value.db, done.value.reply);
      assert Call(p, db, m, r, o, draw).0.(commands := db.commands) == done.value.db;
    } else {
      CallStands(p, db, m, r, o, draw);
    }
  }

  lemma CallAnswers(p: Checks, db: Db, m: Meta, r: Request, o: Oracle, draw: Draw, after: Db, reply: Reply)
    requires KeyOf(m, r) !in db.commands && Vetted(p, r, o) && Calm(r, o)
    requires Execute(p, db, m, r, o, draw) == Ok(Recorded(after, reply))
    ensures Call(p, db, m, r, o, draw) ==
            (after.(commands := db.commands[KeyOf(m, r) := Command(r, reply)]), Ok(Answer(reply, false)))
  {
  }

  lemma CallStands(p: Checks, db: Db, m: Meta, r: Request, o: Oracle, draw: Draw)
    requires KeyOf(m, r) !in db.commands && Vetted(p, r, o) && Calm(r, o)
    requires var done := Execute(p, db, m, r, o, draw); !(done.Ok? && done.value.Recorded?)
    requires Execute(p, db, m, r, o, draw).Ok? ==> !r.ClaimBatch?
    ensures Call(p, db, m, r, o, draw) ==
            (db, match Execute(p, db, m, r, o, draw) case Err(e) => Err(e) case Ok(effect) => Ok(Answer(effect.reply, true)))
  {
  }

  // ---------------------------------------------------------------- histories

  // A matching commit reaches a submitted batch: one decision for its version, and a match raises it.
  predicate MatchDoes(c: Case, decisionId: string, matched: bool, rows: seq<MatchedRow>, next: Case) {
    var decided := c.(decisions := c.decisions + [MatchDecision(decisionId, c.version, c.epoch, matched, rows)]);
    && c.status == Submitted
    && if matched then HasRoom(c) && next == Onwards(decided, MatchingCompletedEntry, MatchedBatch)
       else next == decided.(audit := c.audit + [Audit(MatchingCompletedEntry, Submitted, Submitted, c.version)])
  }

  // The step is a permitted first call, or a matching commit, and does what it says.
  ghost predicate Rightful(p: Checks, db: Db, a: Action, next: Db) {
    match a
    case Match(id, decisionId, matched, rows) =>
      && id in db.cases && id in next.cases && OnlyCase(db, next, id, next.cases[id])
      && MatchDoes(db.cases[id], decisionId, matched, rows, next.cases[id])
    case Invoke(m, r, o, draw) =>
      && KeyOf(m, r) !in db.commands && Vetted(p, r, o) && Permitted(p, db, m, r, o, draw)
      && exists reply ::
           && Does(p, db, m, r, o, draw, next.(commands := db.commands), reply)
           && next.commands == db.commands[KeyOf(m, r) := Command(r, reply)]
  }

  lemma WrittenIsRightful(p: Checks, db: Db, m: Meta, r: Request, o: Oracle, draw: Draw, done: Db, reply: Reply, next: Db)
    requires Permitted(p, db, m, r, o, draw) && Does(p, db, m, r, o, draw, done, reply) && done.commands == db.commands
    requires KeyOf(m, r) !in db.commands && Vetted(p, r, o) && next == done.(commands := db.commands[KeyOf(m, r) := Command(r, reply)])
    ensures Rightful(p, db, Invoke(m, r, o, draw), next)
  {
    assert next.(commands := db.commands) == done;
  }

  lemma CallIsRightful(p: Checks, db: Db, m: Meta, r: Request, o: Oracle, draw: Draw)
    requires Inv(p, db) && Call(p, db, m, r, o, draw).0 != db
    ensures Rightful(p, db, Invoke(m, r, o, draw), Call(p, db, m, r, o, draw).0)
  {
    CallWrites(p, db, m, r, o, draw);
    WritesVetted(p, db, m, r, o, draw);
    ExecuteTells(p, db, m, r, o, draw);
    ExecuteKeeps(p, db, m, r, o, draw);
    var done := Execute(p, db, m, r, o, draw).value;
    WrittenIsRightful(p, db, m, r, o, draw, done.db, done.reply, Call(p, db, m, r, o, draw).0);
  }

  lemma WritesVetted(p: Checks, db: Db, m: Meta, r: Request, o: Oracle, draw: Draw)
    requires Call(p, db, m, r, o, draw).0 != db
    ensures Vetted(p, r, o)
  {
    if !Vetted(p, r, o) && KeyOf(m, r) !in db.commands { UnvettedRefused(p, db, m, r, o, draw); }
  }

  lemma MatchIsRightful(db: Db, batchId: string, decisionId: string, matched: bool, rows: seq<MatchedRow>)
    requires MatchStep(db, batchId, decisionId, matched, rows) != db
    ensures var next := MatchStep(db, batchId, decisionId, matched, rows);
            && batchId in db.cases && batchId in next.cases && OnlyCase(db, next, batchId, next.cases[batchId])
            && MatchDoes(db.cases[batchId], decisionId, matched, rows, next.cases[batchId])
  {
  }

  /** Every change in every history is rightful: a first, vetted call whose caller, version and rows
      meet the command's conditions, with exactly the command's effect; or a matching commit. */
  lemma ChangesAreRightful(p: Checks, dbs: seq<Db>, actions: seq<Action>, k: nat)
    requires History(p, dbs, actions) && k < |actions| && dbs[k + 1] != dbs[k]
    ensures Rightful(p, dbs[k], actions[k], dbs[k + 1])
  {
    InvHolds(p, dbs, actions, k);
    StepAt(p, dbs, actions, k);
    match actions[k]
    case Invoke(m, r, o, draw) => CallIsRightful(p, dbs[k], m, r, o, draw);
    case Match(batchId, decisionId, matched, rows) => MatchIsRightful(dbs[k], batchId, decisionId, matched, rows);
  }

  // ---------------------------------------------------------------- collectors

  ghost predicate StatusChanges(db: Db, after: Db, id: string, i: nat)
    requires id in db.cases && i < |db.cases[id].assignments|
  {
    id !in after.cases || i >= |after.cases[id].assignments| ||
    after.cases[id].assignments[i].status != db.cases[id].assignments[i].status
  }

  lemma OneKeepsStatus(p: Checks, db: Db, x: string, m: Meta, r: Request, draw: Draw, after: Db, reply: Reply, id: string, i: nat)
    requires r.EditDraft? || r.Submit? || r.VerifyReceipt? || r.RecordTreatment? || r.Acknowledge?
    requires DoesOne(p, db, x, m, r, draw, after, reply) && id in db.cases && i < |db.cases[id].assignments|
    ensures !StatusChanges(db, after, id, i)
  {
    assert after.cases[x].assignments == db.cases[x].assignments;
  }

  lemma RowKeepsStatus(db: Db, r: Request, x: string, n: nat, draw: Draw, after: Db, reply: Reply, id: string, i: nat)
    requires OnAssignment(r) && DoesOnRow(db, r, x, n, draw, after, reply) && id in db.cases && i < |db.cases[id].assignments|
    ensures id in after.cases && i < |after.cases[id].assignments|
    ensures StatusChanges(db, after, id, i) ==> ByCollector(r) && x == id && n == i
  {
  }

  lemma ClaimKeepsStatus(p: Checks, db: Db, x: string, m: Meta, o: Oracle, draw: Draw, after: Db, id: string, i: nat)
    requires x in db.cases && ClaimDoes(p, db, x, db.cases[x], m, o, draw, after) && id in db.cases && i < |db.cases[id].assignments|
    ensures !StatusChanges(db, after, id, i)
  {
  }

  lemma SelectKeepsStatus(db: Db, x: string, m: Meta, scopeId: string, draw: Draw, after: Db, id: string, i: nat)
    requires x in db.cases && SelectDoes(db, x, db.cases[x], m, scopeId, draw, after) && id in db.cases && i < |db.cases[id].assignments|
    ensures !StatusChanges(db, after, id, i)
  {
  }

  // The row keeps its status unless the step is a collector's command on it.
  lemma StatusKept(p: Checks, db: Db, m: Meta, r: Request, o: Oracle, draw: Draw, after: Db, reply: Reply, id: string, i: nat)
    requires (r.CreateDraft? ==> draw.batchId !in db.cases) && Does(p, db, m, r, o, draw, after, reply)
    requires id in db.cases && i < |db.cases[id].assignments|
    ensures id in after.cases && i < |after.cases[id].assignments|
    ensures StatusChanges(db, after, id, i) ==> ByCollector(r) && Row(db, id, i, r.assignmentId)
  {
    if OnAssignment(r) {
      var x, n: nat :| DoesOnRow(db, r, x, n, draw, after, reply);
      RowKeepsStatus(db, r, x, n, draw, after, reply, id, i);
    } else if r.ClaimBatch? {
      ClaimKeepsStatus(p, db, r.batchId, m, o, draw, after, id, i);
    } else if r.SelectCollector? {
      SelectKeepsStatus(db, r.batchId, m, r.scopeId, draw, after, id, i);
    } else if !r.CreateDraft? {
      OneKeepsStatus(p, db, r.batchId, m, r, draw, after, reply, id, i);
    }
  }

  /** Whenever one step of a history changes the status of an assignment, it is a call of the collector
      the assignment was made to, on the current assignment and on the version the batch has. */
  lemma OnlyTheCollector(p: Checks, dbs: seq<Db>, actions: seq<Action>, k: nat, id: string, i: nat)
    requires History(p, dbs, actions) && k < |actions| && id in dbs[k].cases && i < |dbs[k].cases[id].assignments|
    ensures id in dbs[k + 1].cases && i < |dbs[k + 1].cases[id].assignments|
    ensures dbs[k + 1].cases[id].assignments[i].status != dbs[k].cases[id].assignments[i].status ==>
              var c, a := dbs[k].cases[id], actions[k];
              && a.Invoke? && ByCollector(a.request) && a.request.assignmentId == c.assignments[i].id
              && ActorOf(a.meta) == c.assignments[i].collector
              && c.version == a.request.expected % 0x1_0000_0000 && c.assignment == Some(c.assignments[i].id)
  {
    if dbs[k + 1] != dbs[k] {
      ChangesAreRightful(p, dbs, actions, k);
      InvHolds(p, dbs, actions, k);
      match actions[k]
      case Match(_, _, _, _) =>
      case Invoke(m, r, o, draw) =>
        var reply :| Does(p, dbs[k], m, r, o, draw, dbs[k + 1].(commands := dbs[k].commands), reply);
        StatusKept(p, dbs[k], m, r, o, draw, dbs[k + 1].(commands := dbs[k].commands), reply, id, i);
        if dbs[k + 1].cases[id].assignments[i].status != dbs[k].cases[id].assignments[i].status {
          PermittedRow(p, dbs[k], m, r, o, draw, id, i);
        }
    }
  }

  lemma PermittedRow(p: Checks, db: Db, m: Meta, r: Request, o: Oracle, draw: Draw, id: string, i: nat)
    requires Inv(p, db) && ByCollector(r) && Permitted(p, db, m, r, o, draw) && Row(db, id, i, r.assignmentId)
    ensures CollectorMay(db.cases[id], i, ActorOf(m), r)
  {
    var x, n: nat :| MayOnRow(db, m, r, x, n);
    RowLocated(p, db, x, n, r.assignmentId);
    RowLocated(p, db, id, i, r.assignmentId);
  }

  /** Anyone else who accepts, rejects, hands off or fails the assignment is answered FORBIDDEN, and
      nothing changes. */
  lemma OthersAreForbidden(p: Checks, dbs: seq<Db>, actions: seq<Action>, k: nat, id: string, i: nat)
    requires History(p, dbs, actions) && k < |actions| && actions[k].Invoke? && ByCollector(actions[k].request)
    requires KeyOf(actions[k].meta, actions[k].request) !in dbs[k].commands && Vetted(p, actions[k].request, actions[k].oracle)
    requires Row(dbs[k], id, i, actions[k].request.assignmentId)
    requires dbs[k].cases[id].assignments[i].collector != ActorOf(actions[k].meta)
    ensures AnswerAt(p, dbs, actions, k) == Err(Forbidden) && dbs[k + 1] == dbs[k]
  {
    var a := actions[k];
    InvHolds(p, dbs, actions, k);
    StepAt(p, dbs, actions, k);
    if Permitted(p, dbs[k], a.meta, a.request, a.oracle, a.draw) {
      PermittedRow(p, dbs[k], a.meta, a.request, a.oracle, a.draw, id, i);
    }
    FirstCallTells(p, dbs[k], a.meta, a.request, a.oracle, a.draw);
    assert RowRefusal(dbs[k], a.meta, a.request, id, i) == Forbidden;
  }
}
