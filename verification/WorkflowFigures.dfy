/** The figures of every batch in every history: what was submitted and received is valid, and every
    treatment event was frozen from them, so that every treated batch can be completed. */
module WorkflowFigures {
  import opened Wrappers
  import opened BatchCase
  import opened CaseInvariant
  import opened Workflow
  import opened WorkflowRuns
  import opened WorkflowHistories
  import Impact

  // The event's measures are those of this request on the batch's own figures.
  predicate Treats(p: Checks, c: Case, request: Impact.TreatmentRequest)
    requires c.receipt.Some? && c.source.Some?
  {
    var treatment := p.normalize(request, c.receipt.value.figures.weightKg);
    treatment.Ok? &&
    c.source.value.data.measures == Impact.EventMeasures(DeclaredOf(c), c.receipt.value.figures, treatment.value)
  }

  ghost predicate Sourced(p: Checks, id: string, c: Case) {
    c.source.Some? ==>
      && c.receipt.Some? && c.source.value.batchId == id && c.source.value.data.ruleVersion == p.ruleVersion
      && exists request :: Treats(p, c, request)
  }

  ghost predicate Figured(p: Checks, id: string, c: Case) {
    && (c.details.Some? ==> p.submittable(c.details.value))
    && (c.receipt.Some? ==> c.details.Some? && p.receivable(c.receipt.value.figures))
    && Sourced(p, id, c)
  }

  ghost predicate AllFigured(p: Checks, db: Db) {
    forall id {:trigger Figured(p, id, db.cases[id])} :: id in db.cases ==> Figured(p, id, db.cases[id])
  }

  // A step that leaves the figures of every batch alone.
  predicate SameFigures(c: Case, next: Case) {
    next.details == c.details && next.receipt == c.receipt && next.source == c.source
  }

  lemma SameFigured(p: Checks, id: string, c: Case, next: Case)
    requires Figured(p, id, c) && SameFigures(c, next)
    ensures Figured(p, id, next)
  {
    if next.source.Some? {
      var request :| Treats(p, c, request);
      assert Treats(p, next, request);
    }
  }

  lemma OneFigured(p: Checks, db: Db, after: Db, id: string)
    requires AllFigured(p, db) && id in after.cases && after.cases == db.cases[id := after.cases[id]]
    requires Figured(p, id, after.cases[id])
    ensures AllFigured(p, after)
  {
    forall x | x in after.cases ensures Figured(p, x, after.cases[x]) {
      if x != id { assert Figured(p, x, db.cases[x]); }
    }
  }

  lemma BatchFigured(p: Checks, db: Db, m: Meta, r: Request, o: Oracle, draw: Draw)
    requires (r.EditDraft? || r.Submit? || r.VerifyReceipt? || r.RecordTreatment?) && r.batchId in db.cases
    requires Presentable(p, r) && CaseSound(db.cases[r.batchId]) && Figured(p, r.batchId, db.cases[r.batchId])
    requires BatchNext(p, db, m, r, o, draw).Ok?
    ensures Figured(p, r.batchId, BatchNext(p, db, m, r, o, draw).value)
  {
    var c, next := db.cases[r.batchId], BatchNext(p, db, m, r, o, draw).value;
    if r.RecordTreatment? { assert Treats(p, next, r.request); }
  }

  lemma BatchKeepsFigures(p: Checks, db: Db, m: Meta, r: Request, o: Oracle, draw: Draw)
    requires r.EditDraft? || r.Submit? || r.VerifyReceipt? || r.RecordTreatment?
    requires AllFigured(p, db) && CasesSound(db) && Presentable(p, r) && BatchStep(p, db, m, r, o, draw).Ok?
    ensures AllFigured(p, BatchStep(p, db, m, r, o, draw).value.0)
  {
    assert Figured(p, r.batchId, db.cases[r.batchId]) && CaseSound(db.cases[r.batchId]);
    BatchFigured(p, db, m, r, o, draw);
    OneFigured(p, db, BatchStep(p, db, m, r, o, draw).value.0, r.batchId);
  }

  lemma AssignmentKeepsFigures(p: Checks, db: Db, m: Meta, r: Request, draw: Draw)
    requires r.AcceptAssignment? || r.RejectAssignment? || r.RecordHandoff? || r.FailPickup? || r.RecoverCollection?
    requires AllFigured(p, db) && AssignmentStep(db, m, r, draw).Ok?
    ensures AllFigured(p, AssignmentStep(db, m, r, draw).value.0)
  {
    var (id, i) := Located(db, r.assignmentId).value;
    var c, next := db.cases[id], AssignmentNext(db.cases[id], i, ActorOf(m), r, draw.rowId).value;
    assert Figured(p, id, c) && SameFigures(c, next);
    SameFigured(p, id, c, next);
    OneFigured(p, db, AssignmentStep(db, m, r, draw).value.0, id);
  }

  lemma ClaimKeepsFigures(p: Checks, db: Db, m: Meta, batchId: string, expected: int, epoch: int, o: Oracle, draw: Draw)
    requires AllFigured(p, db) && ClaimStep(p, db, m, batchId, expected, epoch, o, draw).Ok?
    ensures AllFigured(p, ClaimStep(p, db, m, batchId, expected, epoch, o, draw).value.0)
  {
    var after := ClaimStep(p, db, m, batchId, expected, epoch, o, draw).value.0;
    assert Figured(p, batchId, db.cases[batchId]) && SameFigures(db.cases[batchId], after.cases[batchId]);
    SameFigured(p, batchId, db.cases[batchId], after.cases[batchId]);
    OneFigured(p, db, after, batchId);
  }

  lemma SelectKeepsFigures(p: Checks, db: Db, m: Meta, batchId: string, expected: int, epoch: int, scopeId: string,
                           o: Oracle, draw: Draw)
    requires AllFigured(p, db) && SelectStep(db, m, batchId, expected, epoch, scopeId, o, draw).Ok?
    ensures AllFigured(p, SelectStep(db, m, batchId, expected, epoch, scopeId, o, draw).value.0)
  {
    var after := SelectStep(db, m, batchId, expected, epoch, scopeId, o, draw).value.0;
    assert Figured(p, batchId, db.cases[batchId]) && SameFigures(db.cases[batchId], after.cases[batchId]);
    SameFigured(p, batchId, db.cases[batchId], after.cases[batchId]);
    OneFigured(p, db, after, batchId);
  }

  lemma AcknowledgeKeepsFigures(p: Checks, db: Db, m: Meta, batchId: string, expected: int, ack: Acknowledgement, draw: Draw)
    requires AllFigured(p, db) && AcknowledgeStep(p, db, m, batchId, expected, ack, draw).Ok?
    requires AcknowledgeStep(p, db, m, batchId, expected, ack, draw).value.Recorded?
    ensures AllFigured(p, AcknowledgeStep(p, db, m, batchId, expected, ack, draw).value.db)
  {
    var after := AcknowledgeStep(p, db, m, batchId, expected, ack, draw).value.db;
    assert Figured(p, batchId, db.cases[batchId]) && SameFigures(db.cases[batchId], after.cases[batchId]);
    SameFigured(p, batchId, db.cases[batchId], after.cases[batchId]);
    OneFigured(p, db, after, batchId);
  }

  lemma ExecuteKeepsFigures(p: Checks, db: Db, m: Meta, r: Request, o: Oracle, draw: Draw)
    requires AllFigured(p, db) && CasesSound(db) && Presentable(p, r)
    requires Execute(p, db, m, r, o, draw).Ok? && Execute(p, db, m, r, o, draw).value.Recorded?
    ensures AllFigured(p, Execute(p, db, m, r, o, draw).value.db)
  {
    match r
    case CreateDraft(columns) => OneFigured(p, db, Execute(p, db, m, r, o, draw).value.db, draw.batchId);
    case ClaimBatch(batchId, expected, epoch, _) => ClaimKeepsFigures(p, db, m, batchId, expected, epoch, o, draw);
    case SelectCollector(batchId, expected, epoch, scopeId) =>
      SelectKeepsFigures(p, db, m, batchId, expected, epoch, scopeId, o, draw);
    case Acknowledge(batchId, expected, ack) => AcknowledgeKeepsFigures(p, db, m, batchId, expected, ack, draw);
    case EditDraft(_, _, _) => BatchKeepsFigures(p, db, m, r, o, draw);
    case Submit(_, _) => BatchKeepsFigures(p, db, m, r, o, draw);
    case VerifyReceipt(_, _, _) => BatchKeepsFigures(p, db, m, r, o, draw);
    case RecordTreatment(_, _, _) => BatchKeepsFigures(p, db, m, r, o, draw);
    case _ => AssignmentKeepsFigures(p, db, m, r, draw);
  }

  lemma CallKeepsFigures(p: Checks, db: Db, m: Meta, r: Request, o: Oracle, draw: Draw)
    requires AllFigured(p, db) && CasesSound(db)
    ensures AllFigured(p, Call(p, db, m, r, o, draw).0)
  {
    var after := Call(p, db, m, r, o, draw).0;
    if after != db {
      ExecuteKeepsFigures(p, db, m, r, o, draw);
      assert after.cases == Execute(p, db, m, r, o, draw).value.db.cases;
      forall id | id in after.cases ensures Figured(p, id, after.cases[id]) {
        assert Figured(p, id, Execute(p, db, m, r, o, draw).value.db.cases[id]);
      }
    }
  }

  lemma MatchKeepsFigures(p: Checks, db: Db, batchId: string, decisionId: string, matched: bool, rows: seq<MatchedRow>)
    requires AllFigured(p, db)
    ensures AllFigured(p, MatchStep(db, batchId, decisionId, matched, rows))
  {
    var after := MatchStep(db, batchId, decisionId, matched, rows);
    if after != db {
      assert Figured(p, batchId, db.cases[batchId]) && SameFigures(db.cases[batchId], after.cases[batchId]);
      SameFigured(p, batchId, db.cases[batchId], after.cases[batchId]);
      OneFigured(p, db, after, batchId);
    }
  }

  /** In every reachable state what was submitted passed the submission's checks, what was received is a
      normalised receipt, and a treatment event has the measures of a request on the batch's figures. */
  lemma {:induction false} FiguresHold(p: Checks, dbs: seq<Db>, actions: seq<Action>, k: nat)
    requires History(p, dbs, actions) && k < |dbs|
    ensures AllFigured(p, dbs[k])
  {
    if k > 0 {
      FiguresHold(p, dbs, actions, k - 1);
      InvHolds(p, dbs, actions, k - 1);
      StepAt(p, dbs, actions, k - 1);
      match actions[k - 1]
      case Invoke(m, r, o, draw) => CallKeepsFigures(p, dbs[k - 1], m, r, o, draw);
      case Match(batchId, decisionId, matched, rows) =>
        MatchKeepsFigures(p, dbs[k - 1], batchId, decisionId, matched, rows);
    }
  }
}
