/** One batch driven from draft to completion under the real validations, and two histories that
    continue it: a key that succeeds twice with different requests, and a repetition whose reply fails
    the worker's check. */
module WorkflowExamples {
  import opened Wrappers
  import opened Vocabulary
  import opened BatchCase
  import opened Decimals
  import opened Snapshots
  import opened Workflow
  import opened WorkflowRuns
  import opened WorkflowHistories
  import opened Completions
  import Impact
  import Intake

  // ---------------------------------------------------------------- the actors and what they send

  const DONOR := Actor("donor", "D")
  const RECYCLER := Actor("recycler", "R")
  const COLLECTOR := Actor("collector", "C")

  const COLUMNS :=
    Columns(Some("BATTERIES"), Some(1), Some("1.00"), Some("FUNCTIONAL"), None, Some("NORTH"), Some(48 * HOUR))
  const DETAILS := Details("D", 0, "BATTERIES", 1, "1.00", "FUNCTIONAL", false, "NORTH", 48 * HOUR)
  const DECLARED := Impact.Declared("BATTERIES", 1, "1.00")
  const FIGURES := Impact.Receipt("ICT_EQUIPMENT", 2, "1.00")
  const NO_AMOUNTS := Impact.TreatmentRequest(None, None, None, None)

  const CALM := Race(LeaseHeld, Landed, false, true)
  const ORACLE := Oracle(true, true, true, true, Some(0), CALM)
  const DRAW := Draw("B", "K", "V", "A", "T", "E", 0)

  function By(actor: Actor, key: string): Meta { Meta(User(actor), key, "corr") }

  function Service(key: string, correlationId: string): Meta { Meta(Scope.Service("worker"), key, correlationId) }

  function Sent(m: Meta, r: Request): Action { Invoke(m, r, ORACLE, DRAW) }

  const OPENING: Db :=
    Db(map[], map[], map["P" := LivePool("R", 1000, 0, 0, true)], [], [], map[])

  const CREATED := Sent(By(DONOR, "1"), CreateDraft(COLUMNS))
  const SUBMITTED := Sent(By(DONOR, "2"), Submit("B", 1))
  const DECIDED := Match("B", "M", true, [MatchedRow("R", Some("P"), true)])
  const CLAIMED_NOW := Sent(By(RECYCLER, "3"), ClaimBatch("B", 3, 1, ""))
  const ASSIGNED := Sent(By(COLLECTOR, "4"), SelectCollector("B", 4, 1, "S"))
  const HANDED := Sent(By(COLLECTOR, "5"), RecordHandoff("A", 5, 0))
  const RECEIVED := Sent(By(RECYCLER, "6"), VerifyReceipt("B", 6, FIGURES))
  const TREATED := Sent(By(RECYCLER, "7"), RecordTreatment("B", 7, NO_AMOUNTS))

  const PREFIX := [CREATED, SUBMITTED, DECIDED, CLAIMED_NOW, ASSIGNED, HANDED, RECEIVED, TREATED]

  // ---------------------------------------------------------------- histories grow

  lemma HistoryGrows(p: Checks, dbs: seq<Db>, actions: seq<Action>, a: Action, after: Db)
    requires History(p, dbs, actions) && after == Apply(p, dbs[|actions|], a)
    ensures History(p, dbs + [after], actions + [a])
  {
    var next := dbs + [after];
    forall i | 0 <= i < |actions + [a]| ensures next[i + 1] == Apply(p, next[i], (actions + [a])[i]) {
      if i < |actions| { StepAt(p, dbs, actions, i); }
    }
  }

  // The states after the first n actions.
  function States(p: Checks, actions: seq<Action>, n: nat): (dbs: seq<Db>)
    requires n <= |actions|
    ensures |dbs| == n + 1
  {
    if n == 0 then [OPENING]
    else
      var before := States(p, actions, n - 1);
      before + [Apply(p, before[n - 1], actions[n - 1])]
  }

  lemma {:induction false} StatesAreHistory(p: Checks, actions: seq<Action>, n: nat)
    requires n <= |actions|
    ensures History(p, States(p, actions, n), actions[..n])
  {
    if n > 0 {
      StatesAreHistory(p, actions, n - 1);
      HistoryGrows(p, States(p, actions, n - 1), actions[..n - 1], actions[n - 1], States(p, actions, n)[n]);
      assert actions[..n] == actions[..n - 1] + [actions[n - 1]];
    }
  }

  function At(p: Checks, n: nat): Db
    requires n <= |PREFIX|
  {
    States(p, PREFIX, n)[n]
  }

  lemma AtNext(p: Checks, n: nat)
    requires n < |PREFIX|
    ensures At(p, n + 1) == Apply(p, At(p, n), PREFIX[n])
  {
  }

  // ---------------------------------------------------------------- the batch, step by step

  // The batch at this status and version, with its declared details once submitted.
  predicate Stage(db: Db, status: BatchStatus, version: nat) {
    && "B" in db.cases && db.cases["B"].status == status && db.cases["B"].version == version && db.cases["B"].epoch == 1
    && db.cases["B"].results == [] && db.cases["B"].donor == DONOR
    && (status != Draft ==> db.cases["B"].details == Some(DETAILS))
  }

  // Validations that let these figures through, with this treatment.
  predicate Passing(p: Checks, treatment: Impact.Treatment) {
    && p.submittable(DETAILS) && p.weigh(DETAILS) == 100 && p.receivable(FIGURES)
    && p.normalize(NO_AMOUNTS, "1.00") == Ok(treatment) && p.ruleVersion == "d3-v1"
  }

  // Nothing but the batch and its commands has changed.
  predicate Untouched(db: Db) { db == OPENING.(cases := db.cases, commands := db.commands) }

  predicate Unassigned(c: Case) { c.assignment.None? && c.assignments == [] && c.receipt.None? && c.source.None? }

  const MATCHED := MatchDecision("M", 2, 1, true, [MatchedRow("R", Some("P"), true)])
  const SELECTED := Assignment("A", "K", "R", COLLECTOR, "S", 1, None, AcceptedAssignment, 1, 0)

  // The claim row the later commands look for.
  predicate ClaimHeld(db: Db) {
    && db.claims == [Claim("K", "B", 1, RECYCLER, "3", "M")] && db.reservations == [Reservation("V", "B", "K", "P", 100)]
    && "B" in db.cases && db.cases["B"].claim == Some("K")
  }

  predicate HandedOver(c: Case) {
    c.assignment == Some("A") && c.assignments == [Restated(SELECTED, CompletedAssignment)] && c.source.None?
  }

  const COMMANDS := [
    CreateBatchCommand, SubmitBatchCommand, ClaimOpportunityCommand, SelectAssignmentCommand, RecordHandoffCommand,
    VerifyReceiptCommand, RecordTreatmentCommand]

  // Only the first n commands have been used.
  predicate Used(db: Db, n: nat)
    requires n <= |COMMANDS|
  {
    forall x :: x in db.commands ==> x.name in COMMANDS[..n]
  }

  // A calm first call commits its transaction and its command row.
  lemma CalmCall(p: Checks, db: Db, m: Meta, r: Request, effect: Effect)
    requires KeyOf(m, r) !in db.commands && Presentable(p, r) && effect.Recorded?
    requires Execute(p, db, m, r, ORACLE, DRAW) == Ok(effect)
    ensures Apply(p, db, Sent(m, r)) == effect.db.(commands := db.commands[KeyOf(m, r) := Command(r, effect.reply)])
  {
  }

  lemma Drafted(p: Checks)
    ensures var db := Apply(p, OPENING, CREATED);
            Stage(db, Draft, 1) && Used(db, 1) && Untouched(db) && db.cases["B"] == Created(DONOR, COLUMNS)
  {
    assert COMMANDS[..1][0] == CreateBatchCommand;
  }

  lemma SubmittedToo(p: Checks, treatment: Impact.Treatment, db: Db)
    requires Passing(p, treatment)
    requires Stage(db, Draft, 1) && Used(db, 1) && Untouched(db) && db.cases["B"] == Created(DONOR, COLUMNS)
    ensures var after := Apply(p, db, SUBMITTED);
            && Stage(after, Submitted, 2) && Used(after, 2) && Untouched(after) && Unassigned(after.cases["B"])
            && after.cases["B"].claim.None? && after.cases["B"].decisions == []
  {
    assert COMMANDS[..2][1] == SubmitBatchCommand && COMMANDS[..2][0] == CreateBatchCommand;
  }

  lemma MatchedToo(p: Checks, db: Db)
    requires Stage(db, Submitted, 2) && Used(db, 2) && Untouched(db) && Unassigned(db.cases["B"])
    requires db.cases["B"].claim.None? && db.cases["B"].decisions == []
    ensures var after := Apply(p, db, DECIDED);
            && Stage(after, MatchedBatch, 3) && Used(after, 2) && Untouched(after) && Unassigned(after.cases["B"])
            && after.cases["B"].claim.None? && after.cases["B"].decisions == [MATCHED]
  {
  }

  lemma ClaimSucceeds(p: Checks, treatment: Impact.Treatment, db: Db) returns (after: Db, reply: Reply)
    requires Passing(p, treatment)
    requires Stage(db, MatchedBatch, 3) && Untouched(db) && Unassigned(db.cases["B"])
    requires db.cases["B"].claim.None? && db.cases["B"].decisions == [MATCHED]
    ensures ClaimStep(p, db, By(RECYCLER, "3"), "B", 3, 1, ORACLE, DRAW) == Ok((after, reply))
    ensures Stage(after, Approved, 4) && ClaimHeld(after) && Unassigned(after.cases["B"]) && after.assignmentBatch == map[]
  {
    var c := db.cases["B"];
    assert RestsOn(c, c.decisions[0]) && DecisionIndex(c, c.decisions) == Some(0);
    assert Offers(c.decisions[0], "R", 0);
    var claimed := ClaimStep(p, db, By(RECYCLER, "3"), "B", 3, 1, ORACLE, DRAW);
    after, reply := claimed.value.0, claimed.value.1;
  }

  lemma ClaimedToo(p: Checks, treatment: Impact.Treatment, db: Db)
    requires Passing(p, treatment)
    requires Stage(db, MatchedBatch, 3) && Used(db, 2) && Untouched(db) && Unassigned(db.cases["B"])
    requires db.cases["B"].claim.None? && db.cases["B"].decisions == [MATCHED]
    ensures var after := Apply(p, db, CLAIMED_NOW);
            && Stage(after, Approved, 4) && Used(after, 3) && ClaimHeld(after) && Unassigned(after.cases["B"])
            && after.assignmentBatch == map[]
  {
    var after, reply := ClaimSucceeds(p, treatment, db);
    CalmCall(p, db, By(RECYCLER, "3"), ClaimBatch("B", 3, 1, ""), Recorded(after, reply));
    assert COMMANDS[..3][2] == ClaimOpportunityCommand && COMMANDS[..3][..2] == COMMANDS[..2];
  }

  lemma SelectedToo(p: Checks, db: Db)
    requires Stage(db, Approved, 4) && Used(db, 3) && ClaimHeld(db) && Unassigned(db.cases["B"]) && db.assignmentBatch == map[]
    ensures var after := Apply(p, db, ASSIGNED);
            && Stage(after, Assigned, 5) && Used(after, 4) && ClaimHeld(after) && after.assignmentBatch == map["A" := "B"]
            && after.cases["B"].assignment == Some("A") && after.cases["B"].assignments == [SELECTED]
            && after.cases["B"].receipt.None? && after.cases["B"].source.None?
  {
    var c := db.cases["B"];
    assert db.reservations[0].claimId == "K";
    assert AcceptedClaim(db, "B", c, 0);
    assert AcceptedClaimIn(db, "B", c, 1) == Some(0);
    assert COMMANDS[..4][3] == SelectAssignmentCommand && COMMANDS[..4][..3] == COMMANDS[..3];
  }

  lemma HandoffSucceeds(db: Db) returns (after: Db, reply: Reply)
    requires Stage(db, Assigned, 5) && ClaimHeld(db) && db.assignmentBatch == map["A" := "B"]
    requires db.cases["B"].assignment == Some("A") && db.cases["B"].assignments == [SELECTED]
    requires db.cases["B"].receipt.None? && db.cases["B"].source.None?
    ensures AssignmentStep(db, By(COLLECTOR, "5"), RecordHandoff("A", 5, 0), DRAW) == Ok((after, reply))
    ensures Stage(after, Collected, 6) && ClaimHeld(after) && HandedOver(after.cases["B"]) && after.cases["B"].receipt.None?
  {
    assert IndexOfAssignment([SELECTED], "A") == Some(0);
    assert Located(db, "A") == Some(("B", 0));
    assert [SELECTED][0 := Restated(SELECTED, CompletedAssignment)] == [Restated(SELECTED, CompletedAssignment)];
    var handed := AssignmentStep(db, By(COLLECTOR, "5"), RecordHandoff("A", 5, 0), DRAW);
    after, reply := handed.value.0, handed.value.1;
  }

  lemma CollectedToo(p: Checks, db: Db)
    requires Stage(db, Assigned, 5) && Used(db, 4) && ClaimHeld(db) && db.assignmentBatch == map["A" := "B"]
    requires db.cases["B"].assignment == Some("A") && db.cases["B"].assignments == [SELECTED]
    requires db.cases["B"].receipt.None? && db.cases["B"].source.None?
    ensures var after := Apply(p, db, HANDED);
            && Stage(after, Collected, 6) && Used(after, 5) && ClaimHeld(after) && HandedOver(after.cases["B"])
            && after.cases["B"].receipt.None?
  {
    var after, reply := HandoffSucceeds(db);
    CalmCall(p, db, By(COLLECTOR, "5"), RecordHandoff("A", 5, 0), Recorded(after, reply));
    assert COMMANDS[..5][4] == RecordHandoffCommand && COMMANDS[..5][..4] == COMMANDS[..4];
  }

  // The claim and the assignment that receipts and treatments ask for.
  lemma InScope(db: Db)
    requires ClaimHeld(db) && db.cases["B"].epoch == 1 && HandedOver(db.cases["B"])
    ensures ClaimInScope(db, "B", db.cases["B"], "R") && AssignmentInScope(db.cases["B"], "R")
  {
    assert db.claims[0].id == "K";
    assert db.cases["B"].assignments[0].id == "A";
  }

  lemma VerifiedToo(p: Checks, treatment: Impact.Treatment, db: Db)
    requires Passing(p, treatment)
    requires Stage(db, Collected, 6) && Used(db, 5) && ClaimHeld(db) && HandedOver(db.cases["B"]) && db.cases["B"].receipt.None?
    ensures var after := Apply(p, db, RECEIVED);
            && Stage(after, Verified, 7) && Used(after, 6) && ClaimHeld(after) && HandedOver(after.cases["B"])
            && after.cases["B"].receipt.Some? && after.cases["B"].receipt.value.figures == FIGURES
  {
    InScope(db);
    assert COMMANDS[..6][5] == VerifyReceiptCommand && COMMANDS[..6][..5] == COMMANDS[..5];
  }

  // A batch that awaits its acknowledgement.
  predicate Awaiting(db: Db, treatment: Impact.Treatment) {
    && Stage(db, Recycled, 8) && Used(db, 7) && db.cases["B"].source.Some?
    && var e := db.cases["B"].source.value;
       && e.eventId == "E" && e.batchId == "B" && e.aggregateVersion == 8 && e.correlationId == "corr"
       && e.data.ruleVersion == "d3-v1" && e.data.measures == Impact.EventMeasures(DECLARED, FIGURES, treatment)
  }

  lemma RecycledToo(p: Checks, treatment: Impact.Treatment, db: Db)
    requires Passing(p, treatment)
    requires Stage(db, Verified, 7) && Used(db, 6) && ClaimHeld(db) && HandedOver(db.cases["B"])
    requires db.cases["B"].receipt.Some? && db.cases["B"].receipt.value.figures == FIGURES
    ensures Awaiting(Apply(p, db, TREATED), treatment)
  {
    InScope(db);
    assert COMMANDS[..7][6] == RecordTreatmentCommand && COMMANDS[..7][..6] == COMMANDS[..6];
  }

  lemma MatchedReached(p: Checks, treatment: Impact.Treatment)
    requires Passing(p, treatment)
    ensures var db := At(p, 3);
            && Stage(db, MatchedBatch, 3) && Used(db, 2) && Untouched(db) && Unassigned(db.cases["B"])
            && db.cases["B"].claim.None? && db.cases["B"].decisions == [MATCHED]
  {
    AtNext(p, 0);
    Drafted(p);
    AtNext(p, 1);
    SubmittedToo(p, treatment, At(p, 1));
    AtNext(p, 2);
    MatchedToo(p, At(p, 2));
  }

  lemma ApprovedReached(p: Checks, treatment: Impact.Treatment)
    requires Passing(p, treatment)
    ensures Stage(At(p, 4), Approved, 4) && Used(At(p, 4), 3) && ClaimHeld(At(p, 4)) && Unassigned(At(p, 4).cases["B"])
    ensures At(p, 4).assignmentBatch == map[]
  {
    MatchedReached(p, treatment);
    AtNext(p, 3);
    ClaimedToo(p, treatment, At(p, 3));
  }

  lemma CollectedReached(p: Checks, treatment: Impact.Treatment)
    requires Passing(p, treatment)
    ensures Stage(At(p, 6), Collected, 6) && Used(At(p, 6), 5) && ClaimHeld(At(p, 6)) && HandedOver(At(p, 6).cases["B"])
    ensures At(p, 6).cases["B"].receipt.None?
  {
    ApprovedReached(p, treatment);
    AtNext(p, 4);
    SelectedToo(p, At(p, 4));
    AtNext(p, 5);
    CollectedToo(p, At(p, 5));
  }

  lemma PrefixReaches(p: Checks, treatment: Impact.Treatment)
    requires Passing(p, treatment)
    ensures Awaiting(At(p, 8), treatment)
  {
    CollectedReached(p, treatment);
    AtNext(p, 6);
    VerifiedToo(p, treatment, At(p, 6));
    AtNext(p, 7);
    RecycledToo(p, treatment, At(p, 7));
  }

  // ---------------------------------------------------------------- the acknowledgement

  function AckOf(e: Impact.Recycled, result: Impact.ImpactResult): Acknowledgement {
    BatchCase.Acknowledgement("E", 8, RunId("E", "d3-v1", Impact.CanonicalInput(e)), Impact.CanonicalInput(e), result)
  }

  function AckSent(e: Impact.Recycled, key: string, correlationId: string, result: Impact.ImpactResult): Action {
    Sent(Service(key, correlationId), Acknowledge("B", 8, AckOf(e, result)))
  }

  function KeyNamed(key: string): CommandKey { CommandKey(Scope.Service("worker"), AcknowledgeAnalyticsCommand, key) }

  // The batch holds its one result, recorded under the key "first".
  predicate Finished(c: Case, e: Impact.Recycled, result: Impact.ImpactResult) {
    c.status == Completed && c.version == 9 && |c.results| == 1 && c.results[0].ack == AckOf(e, result)
  }

  predicate DoneBy(db: Db, e: Impact.Recycled, result: Impact.ImpactResult, correlationId: string) {
    && "B" in db.cases && Finished(db.cases["B"], e, result)
    && KeyNamed("first") in db.commands && KeyNamed("again") !in db.commands
    && db.commands[KeyNamed("first")].request == Acknowledge("B", 8, AckOf(e, result))
    && db.commands[KeyNamed("first")].reply.CompletionReply?
    && db.commands[KeyNamed("first")].reply.correlationId == correlationId
  }

  lemma AcknowledgeSucceeds(p: Checks, treatment: Impact.Treatment, db: Db, result: Impact.ImpactResult, correlationId: string)
    returns (after: Db, reply: Reply)
    requires Awaiting(db, treatment) && p.accepts(db.cases["B"].source.value.data, result) && result.ruleVersion == "d3-v1"
    ensures var e := db.cases["B"].source.value;
            && AcknowledgeStep(p, db, Service("first", correlationId), "B", 8, AckOf(e, result), DRAW) ==
               Ok(Recorded(after, reply))
            && "B" in after.cases && Finished(after.cases["B"], e, result)
            && reply.CompletionReply? && reply.correlationId == correlationId
  {
    var e := db.cases["B"].source.value;
    var done := AcknowledgeStep(p, db, Service("first", correlationId), "B", 8, AckOf(e, result), DRAW);
    after, reply := done.value.db, done.value.reply;
  }

  lemma AcknowledgedToo(p: Checks, treatment: Impact.Treatment, db: Db, result: Impact.ImpactResult, correlationId: string)
    requires Awaiting(db, treatment) && p.accepts(db.cases["B"].source.value.data, result) && result.ruleVersion == "d3-v1"
    ensures var e := db.cases["B"].source.value;
            DoneBy(Apply(p, db, AckSent(e, "first", correlationId, result)), e, result, correlationId)
  {
    var e := db.cases["B"].source.value;
    var after, reply := AcknowledgeSucceeds(p, treatment, db, result, correlationId);
    CalmCall(p, db, Service("first", correlationId), Acknowledge("B", 8, AckOf(e, result)), Recorded(after, reply));
  }

  lemma RecycledHistory(p: Checks, treatment: Impact.Treatment) returns (dbs: seq<Db>, actions: seq<Action>)
    requires Passing(p, treatment)
    ensures History(p, dbs, actions) && |actions| == 8 && Awaiting(dbs[8], treatment)
  {
    PrefixReaches(p, treatment);
    StatesAreHistory(p, PREFIX, 8);
    assert PREFIX[..8] == PREFIX;
    dbs, actions := States(p, PREFIX, 8), PREFIX;
  }

  lemma CompletedHistory(p: Checks, treatment: Impact.Treatment, before: seq<Db>, sent: seq<Action>,
                         result: Impact.ImpactResult, correlationId: string) returns (dbs: seq<Db>, actions: seq<Action>)
    requires History(p, before, sent) && |sent| == 8 && Awaiting(before[8], treatment)
    requires p.accepts(before[8].cases["B"].source.value.data, result) && result.ruleVersion == "d3-v1"
    ensures var e := before[8].cases["B"].source.value;
            && History(p, dbs, actions) && |actions| == 9 && dbs[8] == before[8]
            && actions[8] == AckSent(e, "first", correlationId, result) && DoneBy(dbs[9], e, result, correlationId)
  {
    var e := before[8].cases["B"].source.value;
    AcknowledgedToo(p, treatment, before[8], result, correlationId);
    var first := AckSent(e, "first", correlationId, result);
    var done := Apply(p, before[8], first);
    HistoryGrows(p, before, sent, first, done);
    dbs, actions := before + [done], sent + [first];
  }

  // ---------------------------------------------------------------- the real validations

  function Weighed(d: Details): int { if IsMoney(d.weightKg) then Amount(d.weightKg) else 0 }

  const REAL :=
    Checks(Weighed, Intake.StoredValid, Intake.Receivable, Impact.NormalizedTreatment, Impact.GoAccepts, "d3-v1")

  lemma OneKilo()
    ensures IsMoney("1.00") && Amount("1.00") == 100
  {
    assert Numeral(1) == "1";
    assert Money(100) == "1.00";
    MoneyShape(100);
  }

  lemma FiguresValid()
    ensures Impact.ValidFigures("BATTERIES", 1, "1.00") && Impact.ValidFigures("ICT_EQUIPMENT", 2, "1.00")
  {
    OneKilo();
    assert CATEGORIES[2] == "BATTERIES" && CATEGORIES[0] == "ICT_EQUIPMENT";
  }

  lemma NoAmountsAccepted()
    ensures Impact.NormalizedTreatment(NO_AMOUNTS, "1.00").Ok?
  {
    OneKilo();
    TreatmentCentsReads("1.00");
    Impact.TreatmentAccepted(NO_AMOUNTS, "1.00");
  }

  lemma RealPasses() returns (treatment: Impact.Treatment)
    ensures Passing(REAL, treatment) && RealChecks(REAL)
  {
    OneKilo();
    FiguresValid();
    NoAmountsAccepted();
    assert CONDITIONS[0] == "FUNCTIONAL" && ZONES[0] == "NORTH";
    treatment := Impact.NormalizedTreatment(NO_AMOUNTS, "1.00").value;
  }

  const FLAGS := [Impact.CategoryMismatch, Impact.CountMismatch, Impact.MissingOutcome]
  const SWAPPED := [Impact.CountMismatch, Impact.CategoryMismatch, Impact.MissingOutcome]

  // The one result Go accepts is the one the worker sends.
  lemma ResultAccepted(treatment: Impact.Treatment, data: Impact.EventData)
    requires Impact.NormalizedTreatment(NO_AMOUNTS, "1.00") == Ok(treatment) && data.ruleVersion == "d3-v1"
    requires data.measures == Impact.EventMeasures(DECLARED, FIGURES, treatment)
    ensures var result := Impact.CentsResult(data.measures, 100, 100, None);
            Impact.GoAccepts(data, result) && Impact.Acknowledgement(data) == Ok(result)
  {
    OneKilo();
    FiguresValid();
    Impact.TreatmentDenotes(DECLARED, FIGURES, NO_AMOUNTS);
    Impact.GoAcceptsCents(data, 100, 100, None);
    Impact.TreatmentEventAcknowledged(DECLARED, FIGURES, NO_AMOUNTS, data);
  }

  lemma FlagsRaised(m: Impact.Measures)
    requires m.declaredCategory == "BATTERIES" && m.actualCategory == "ICT_EQUIPMENT"
    requires m.declaredQuantity == 1 && m.actualItemCount == 2
    ensures Impact.CentsResult(m, 100, 100, None).anomalies == FLAGS
  {
    assert "BATTERIES"[0] != "ICT_EQUIPMENT"[0];
  }

  // What validateAnalyticsRequest asks of a result.
  predicate Sendable(r: Impact.ImpactResult) {
    1 <= |r.ruleVersion| <= 64 && Impact.MetricsWellFormed(r.metrics) && Impact.Distinct(r.anomalies)
  }

  /** Under the real validations some history drives a batch to RECYCLED and then, by the worker's own
      result, to COMPLETED, whatever correlation id the acknowledgement carries. */
  lemma DoneHistory(correlationId: string)
    returns (dbs: seq<Db>, actions: seq<Action>, e: Impact.Recycled, result: Impact.ImpactResult)
    ensures RealChecks(REAL) && History(REAL, dbs, actions) && |actions| == 9
    ensures Impact.Acknowledgement(e.data) == Ok(result) && Impact.GoAccepts(e.data, result) && result.anomalies == FLAGS
    ensures actions[8] == AckSent(e, "first", correlationId, result) && e.correlationId == "corr"
    ensures Stage(dbs[8], Recycled, 8) && dbs[8].cases["B"].source == Some(e) && DoneBy(dbs[9], e, result, correlationId)
  {
    var treatment := RealPasses();
    dbs, actions := RecycledHistory(REAL, treatment);
    e := dbs[8].cases["B"].source.value;
    result := Impact.CentsResult(e.data.measures, 100, 100, None);
    ResultAccepted(treatment, e.data);
    FlagsRaised(e.data.measures);
    dbs, actions := CompletedHistory(REAL, treatment, dbs, actions, result, correlationId);
  }

  // The same, for the two histories below.
  lemma Driven(correlationId: string)
    returns (dbs: seq<Db>, actions: seq<Action>, e: Impact.Recycled, result: Impact.ImpactResult)
    ensures RealChecks(REAL) && History(REAL, dbs, actions) && |actions| == 9
    ensures Sendable(result) && result.anomalies == FLAGS && e.correlationId == "corr"
    ensures actions[8] == AckSent(e, "first", correlationId, result)
    ensures dbs[8] != dbs[9] && "B" in dbs[8].cases && dbs[8].cases["B"].source == Some(e)
    ensures DoneBy(dbs[9], e, result, correlationId)
  {
    dbs, actions, e, result := DoneHistory(correlationId);
  }

  // ---------------------------------------------------------------- one key, two requests

  lemma SwappedAlike()
    ensures multiset(FLAGS) == multiset(SWAPPED) && FLAGS != SWAPPED && Impact.Distinct(SWAPPED)
  {
    assert FLAGS[0] != SWAPPED[0];
  }

  // A differently keyed repetition of a completed batch's acknowledgement, its codes in either order.
  lemma Echoed(p: Checks, db: Db, e: Impact.Recycled, result: Impact.ImpactResult, sent: Impact.ImpactResult)
    requires DoneBy(db, e, result, "corr")
    requires sent == result.(anomalies := sent.anomalies) && multiset(sent.anomalies) == multiset(result.anomalies)
    ensures var a := AckSent(e, "again", "corr", sent);
            && Apply(p, db, a) == db
            && var answer := Call(p, db, a.meta, a.request, a.oracle, a.draw).1;
               answer.Ok? && answer.value.reply.CompletionReply? && answer.value.reply.result == sent
  {
  }

  lemma EchoesGrow(p: Checks, before: seq<Db>, sent: seq<Action>, e: Impact.Recycled, result: Impact.ImpactResult,
                   swapped: Impact.ImpactResult) returns (dbs: seq<Db>, actions: seq<Action>)
    requires History(p, before, sent) && |sent| == 9 && DoneBy(before[9], e, result, "corr")
    requires swapped == result.(anomalies := swapped.anomalies) && multiset(swapped.anomalies) == multiset(result.anomalies)
    requires swapped != result
    ensures History(p, dbs, actions) && |actions| == 11
    ensures actions[9] == AckSent(e, "again", "corr", result) && actions[10] == AckSent(e, "again", "corr", swapped)
    ensures AnswerAt(p, dbs, actions, 9).Ok? && AnswerAt(p, dbs, actions, 10).Ok?
    ensures AnswerAt(p, dbs, actions, 9).value.reply != AnswerAt(p, dbs, actions, 10).value.reply
  {
    var done, one, two := before[9], AckSent(e, "again", "corr", result), AckSent(e, "again", "corr", swapped);
    Echoed(p, done, e, result, result);
    Echoed(p, done, e, result, swapped);
    HistoryGrows(p, before, sent, one, done);
    HistoryGrows(p, before + [done], sent + [one], two, done);
    dbs, actions := before + [done] + [done], sent + [one] + [two];
    assert actions[9] == one && actions[10] == two && dbs[9] == done && dbs[10] == done;
  }

  /** Under the real validations one key succeeds twice with different requests, and with different
      replies: an acknowledgement of a batch that already holds its result is answered without using up
      its key. */
  lemma KeySucceedsTwice() returns (dbs: seq<Db>, actions: seq<Action>, i: nat, j: nat, x: CommandKey)
    ensures RealChecks(REAL) && History(REAL, dbs, actions) && i < j && Uses(actions, i, x) && Uses(actions, j, x)
    ensures actions[i].request.Acknowledge? && Sendable(actions[i].request.ack.result)
    ensures actions[j].request.Acknowledge? && Sendable(actions[j].request.ack.result)
    ensures AnswerAt(REAL, dbs, actions, i).Ok? && AnswerAt(REAL, dbs, actions, j).Ok?
    ensures actions[i].request != actions[j].request
    ensures AnswerAt(REAL, dbs, actions, i).value.reply != AnswerAt(REAL, dbs, actions, j).value.reply
  {
    var before, sent, e, result := Driven("corr");
    SwappedAlike();
    dbs, actions := EchoesGrow(REAL, before, sent, e, result, result.(anomalies := SWAPPED));
    i, j, x := 9, 10, KeyNamed("again");
  }

  // ---------------------------------------------------------------- a foreign correlation id

  /** Under the real validations a repetition fails the worker's check: the call that completed the
      batch sent another correlation id than the event's, and its reply is what every repetition gets. */
  lemma ForeignCorrelationFails()
    returns (dbs: seq<Db>, actions: seq<Action>, i: nat, j: nat, x: CommandKey, e: Impact.Recycled)
    ensures RealChecks(REAL) && History(REAL, dbs, actions) && i < j && Uses(actions, i, x) && Uses(actions, j, x)
    ensures dbs[i + 1] != dbs[i]
    ensures actions[j].request == actions[i].request && actions[i].request.Acknowledge?
    ensures "B" in dbs[i].cases && dbs[i].cases["B"].source == Some(e) && actions[j].meta.correlationId == e.correlationId
    ensures AnswerAt(REAL, dbs, actions, j).Ok?
    ensures !CheckCompletion(AnswerAt(REAL, dbs, actions, j).value.reply, e, actions[j].request.ack.result)
  {
    var before, sent, source, result := Driven("other");
    e := source;
    var done, again := before[9], AckSent(e, "first", "corr", result);
    StoredCallReplays(REAL, done, again.meta, again.request, again.oracle, again.draw);
    HistoryGrows(REAL, before, sent, again, done);
    dbs, actions, x := before + [done], sent + [again], KeyNamed("first");
    i, j := 8, 9;
    assert actions[8] == sent[8] && actions[9] == again && dbs[8] == before[8] && dbs[9] == done;
  }
}
