/** The workflow's theorems, over every history of commands and matching commits. */
module WorkflowHistories {
  import opened Wrappers
  import opened Vocabulary
  import opened BatchCase
  import opened CaseInvariant
  import opened Workflow
  import opened WorkflowRuns
  import MatchingStore
  import StoreRuns
  import Impact

  function MatchStep(db: Db, batchId: string, decisionId: string, matched: bool, rows: seq<MatchedRow>): Db {
    if batchId !in db.cases then db
    else
      match Decided(db.cases[batchId], decisionId, matched, rows)
      case Err(_) => db
      case Ok(c) => WithCase(db, batchId, c)
  }

  function Apply(p: Checks, db: Db, a: Action): Db {
    match a
    case Invoke(m, r, o, draw) => Call(p, db, m, r, o, draw).0
    case Match(batchId, decisionId, matched, rows) => MatchStep(db, batchId, decisionId, matched, rows)
  }

  ghost predicate History(p: Checks, dbs: seq<Db>, actions: seq<Action>) {
    && |dbs| == |actions| + 1 && Initial(dbs[0])
    && forall i {:trigger Position(i)} :: 0 <= i < |actions| ==> dbs[i + 1] == Apply(p, dbs[i], actions[i])
  }

  // Every batch is left alone or takes one step.
  ghost predicate CasesAdvance(db: Db, after: Db) {
    forall id :: id in db.cases ==>
      id in after.cases && (after.cases[id] == db.cases[id] || Advances(db.cases[id], after.cases[id]))
  }

  lemma OneCaseAdvances(db: Db, after: Db, id: string)
    requires id in after.cases && after.cases == db.cases[id := after.cases[id]]
    requires id in db.cases ==> Advances(db.cases[id], after.cases[id])
    ensures CasesAdvance(db, after)
  {
  }

  // ---------------------------------------------------------------- every command keeps the invariant

  lemma TransitKeeps(p: Checks, db: Db, after: Db, id: string)
    requires Inv(p, db) && Transits(db, after, id)
    ensures Inv(p, after) && CasesAdvance(db, after) && after.commands == db.commands
  {
    RewriteKeeps(p, db, after, id);
    OneCaseAdvances(db, after, id);
  }

  lemma ExecuteKeeps(p: Checks, db: Db, m: Meta, r: Request, o: Oracle, draw: Draw)
    requires Inv(p, db) && Execute(p, db, m, r, o, draw).Ok? && Execute(p, db, m, r, o, draw).value.Recorded?
    ensures var after := Execute(p, db, m, r, o, draw).value.db;
            Inv(p, after) && CasesAdvance(db, after) && after.commands == db.commands
  {
    var after := Execute(p, db, m, r, o, draw).value.db;
    match r
    case CreateDraft(columns) =>
      CreateRewrites(db, draw.batchId, ActorOf(m), columns);
      TransitKeeps(p, db, after, draw.batchId);
    case ClaimBatch(batchId, expected, epoch, _) =>
      ClaimWrites(p, db, m, batchId, expected, epoch, o, draw);
      ClaimKeeps(p, db, after, batchId, after.claims[|db.claims|], after.reservations[|db.reservations|]);
      OneCaseAdvances(db, after, batchId);
    case SelectCollector(batchId, expected, epoch, scopeId) =>
      SelectSelects(db, m, batchId, expected, epoch, scopeId, o, draw);
      SelectKeeps(p, db, after, batchId, draw.assignmentId);
      OneCaseAdvances(db, after, batchId);
    case Acknowledge(batchId, expected, ack) =>
      AcknowledgeTransits(p, db, m, batchId, expected, ack, draw);
      TransitKeeps(p, db, after, batchId);
    case EditDraft(_, _, _) => BatchTransits(p, db, m, r, o, draw); TransitKeeps(p, db, after, r.batchId);
    case Submit(_, _) => BatchTransits(p, db, m, r, o, draw); TransitKeeps(p, db, after, r.batchId);
    case VerifyReceipt(_, _, _) => BatchTransits(p, db, m, r, o, draw); TransitKeeps(p, db, after, r.batchId);
    case RecordTreatment(_, _, _) => BatchTransits(p, db, m, r, o, draw); TransitKeeps(p, db, after, r.batchId);
    case _ =>
      AssignmentTransits(db, m, r, draw);
      TransitKeeps(p, db, after, Located(db, r.assignmentId).value.0);
  }

  lemma InvIgnoresCommands(p: Checks, db: Db, after: Db)
    requires Inv(p, db) && after == db.(commands := after.commands)
    ensures Inv(p, after) && CasesAdvance(db, after)
  {
    assert after.claims == db.claims && after.reservations == db.reservations;
    ClaimedStays(db, after);
    forall a | a in after.assignmentBatch ensures Indexed(after, a) { assert Indexed(db, a); }
    forall i | 0 <= i < |after.claims| ensures ClaimSound(p, after, after.claims[i], after.reservations[i]) {
      assert ClaimSound(p, db, db.claims[i], db.reservations[i]);
    }
  }

  lemma CallKeeps(p: Checks, db: Db, m: Meta, r: Request, o: Oracle, draw: Draw)
    requires Inv(p, db)
    ensures var after := Call(p, db, m, r, o, draw).0; Inv(p, after) && CasesAdvance(db, after)
  {
    var (after, answer) := Call(p, db, m, r, o, draw);
    if after != db {
      ExecuteKeeps(p, db, m, r, o, draw);
      var done := Execute(p, db, m, r, o, draw).value.db;
      InvIgnoresCommands(p, done, after);
    }
  }

  lemma MatchKeeps(p: Checks, db: Db, batchId: string, decisionId: string, matched: bool, rows: seq<MatchedRow>)
    requires Inv(p, db)
    ensures var after := MatchStep(db, batchId, decisionId, matched, rows);
            Inv(p, after) && CasesAdvance(db, after) && after.commands == db.commands
  {
    if batchId in db.cases && Decided(db.cases[batchId], decisionId, matched, rows).Ok? {
      MatchTransits(db, batchId, decisionId, matched, rows);
      TransitKeeps(p, db, MatchStep(db, batchId, decisionId, matched, rows), batchId);
    }
  }

  lemma StepKeeps(p: Checks, db: Db, a: Action)
    requires Inv(p, db)
    ensures Inv(p, Apply(p, db, a)) && CasesAdvance(db, Apply(p, db, a))
  {
    match a
    case Invoke(m, r, o, draw) => CallKeeps(p, db, m, r, o, draw);
    case Match(batchId, decisionId, matched, rows) => MatchKeeps(p, db, batchId, decisionId, matched, rows);
  }

  lemma StepAt(p: Checks, dbs: seq<Db>, actions: seq<Action>, i: nat)
    requires History(p, dbs, actions) && i < |actions|
    ensures dbs[i + 1] == Apply(p, dbs[i], actions[i])
  {
    assert Position(i);
  }

  lemma InvStep(p: Checks, dbs: seq<Db>, actions: seq<Action>, i: nat)
    requires History(p, dbs, actions) && i < |actions| && Inv(p, dbs[i])
    ensures Inv(p, dbs[i + 1]) && CasesAdvance(dbs[i], dbs[i + 1])
  {
    StepAt(p, dbs, actions, i);
    StepKeeps(p, dbs[i], actions[i]);
  }

  lemma {:induction false} InvHolds(p: Checks, dbs: seq<Db>, actions: seq<Action>, k: nat)
    requires History(p, dbs, actions) && k < |dbs|
    ensures Inv(p, dbs[k])
  {
    if k > 0 {
      InvHolds(p, dbs, actions, k - 1);
      InvStep(p, dbs, actions, k - 1);
    }
  }

  // ---------------------------------------------------------------- assignments and handoffs

  /** Status, pointers, assignments and handoffs of a batch agree in every reachable state. */
  lemma AssignmentsAgree(p: Checks, dbs: seq<Db>, actions: seq<Action>, k: nat, id: string)
    requires History(p, dbs, actions) && k < |dbs| && id in dbs[k].cases
    ensures var c := dbs[k].cases[id];
            && (forall i :: 0 <= i < |c.assignments| && Open(c.assignments[i]) ==>
                  c.status == Assigned && c.assignment == Some(c.assignments[i].id))
            && (c.status == Assigned ==> c.assignments != [] && Open(c.assignments[|c.assignments| - 1]))
            && (forall i :: 0 <= i < |c.assignments| ==> c.assignments[i].sequence == i + 1)
            && (forall i :: 0 < i < |c.assignments| ==>
                  c.assignments[i].previous == Some(c.assignments[i - 1].id) &&
                  c.assignments[i].collector != c.assignments[i - 1].collector)
            && (forall i :: 0 <= i < |c.assignments| ==>
                  (HandedOff(c.handoffs, c.assignments[i].id) <==>
                   c.assignments[i].status in {CompletedAssignment, FailedAssignment}))
            && (c.claim.Some? <==> c.status in CLAIMED) && (c.assignment.Some? <==> c.status in IN_HAND)
  {
    InvHolds(p, dbs, actions, k);
    var c := dbs[k].cases[id];
    assert CaseSound(c);
    forall i | 0 < i < |c.assignments|
      ensures c.assignments[i].previous == Some(c.assignments[i - 1].id)
      ensures c.assignments[i].collector != c.assignments[i - 1].collector
    {
      assert Replaces(c.assignments[i], c.assignments[i - 1]);
    }
    forall i | 0 <= i < |c.assignments| && HandedOff(c.handoffs, c.assignments[i].id)
      ensures c.assignments[i].status in {CompletedAssignment, FailedAssignment}
    {
      HandoffOfOne(c, i);
    }
  }

  lemma HandoffOfOne(c: Case, i: nat)
    requires CaseSound(c) && i < |c.assignments| && HandedOff(c.handoffs, c.assignments[i].id)
    ensures c.assignments[i].status in {CompletedAssignment, FailedAssignment}
  {
    var h :| 0 <= h < |c.handoffs| && c.handoffs[h].assignmentId == c.assignments[i].id;
    assert Evidenced(c.assignments, c.handoffs[h]);
    var j :| 0 <= j < |c.assignments| && Closes(c.handoffs[h], c.assignments[j]);
    assert Sequenced(c.assignments);
  }

  // ---------------------------------------------------------------- the audit log

  ghost predicate CaseGrows(c: Case, d: Case) {
    c.audit <= d.audit && c.decisions <= d.decisions && c.handoffs <= d.handoffs && c.results <= d.results
  }

  lemma AdvanceAt(p: Checks, dbs: seq<Db>, actions: seq<Action>, i: nat, id: string)
    requires History(p, dbs, actions) && i < |actions| && id in dbs[i].cases
    ensures id in dbs[i + 1].cases
    ensures dbs[i + 1].cases[id] == dbs[i].cases[id] || Advances(dbs[i].cases[id], dbs[i + 1].cases[id])
  {
    InvHolds(p, dbs, actions, i);
    InvStep(p, dbs, actions, i);
  }

  lemma {:induction false} CasesGrow(p: Checks, dbs: seq<Db>, actions: seq<Action>, i: nat, j: nat, id: string)
    requires History(p, dbs, actions) && i <= j < |dbs| && id in dbs[i].cases
    ensures id in dbs[j].cases && CaseGrows(dbs[i].cases[id], dbs[j].cases[id])
    decreases j
  {
    if i < j {
      CasesGrow(p, dbs, actions, i, j - 1, id);
      AdvanceAt(p, dbs, actions, j - 1, id);
    }
  }

  lemma EntryStays(c: Case, d: Case, l: nat)
    requires AuditSound(c) && AuditSound(d) && c.audit <= d.audit && l < |d.audit| && d.audit[l].version == c.version
    ensures d.audit[l].to == c.status
  {
    var last := |c.audit| - 1;
    assert d.audit[last] == c.audit[last];
    if l <= last { VersionFixesStatus(d, l, last); } else { VersionFixesStatus(d, last, l); }
  }

  /** The log determines the lifecycle: whatever status and version a batch once had, every entry of
      that version, written before or since, records that status. */
  lemma AuditRemembers(p: Checks, dbs: seq<Db>, actions: seq<Action>, i: nat, j: nat, id: string, l: nat)
    requires History(p, dbs, actions) && i <= j < |dbs| && id in dbs[i].cases
    requires id in dbs[j].cases && l < |dbs[j].cases[id].audit|
    requires dbs[j].cases[id].audit[l].version == dbs[i].cases[id].version
    ensures dbs[j].cases[id].audit[l].to == dbs[i].cases[id].status
  {
    CasesGrow(p, dbs, actions, i, j, id);
    InvHolds(p, dbs, actions, i);
    InvHolds(p, dbs, actions, j);
    assert CaseSound(dbs[i].cases[id]) && CaseSound(dbs[j].cases[id]);
    EntryStays(dbs[i].cases[id], dbs[j].cases[id], l);
  }

  /** The statuses chain from DRAFT to the current one, and each version up to the current one was
      raised by exactly one entry. */
  lemma AuditChains(p: Checks, dbs: seq<Db>, actions: seq<Action>, k: nat, id: string, v: nat)
    requires History(p, dbs, actions) && k < |dbs| && id in dbs[k].cases && 1 <= v <= dbs[k].cases[id].version
    ensures var c := dbs[k].cases[id];
            && c.audit != [] && c.audit[0].from == Draft && c.audit[|c.audit| - 1].to == c.status
            && (forall l :: 0 < l < |c.audit| ==> c.audit[l].from == c.audit[l - 1].to)
            && exists l :: 0 <= l < |c.audit| && c.audit[l].version == v && Raises(c, l) &&
                 forall q :: 0 <= q < |c.audit| && c.audit[q].version == v && Raises(c, q) ==> q == l
  {
    InvHolds(p, dbs, actions, k);
    var c := dbs[k].cases[id];
    assert CaseSound(c);
    OneEntryRaisesEachVersion(c, v);
    forall l | 0 < l < |c.audit| ensures c.audit[l].from == c.audit[l - 1].to {
      assert Follows(c.audit[l - 1], c.audit[(l - 1) + 1]);
    }
  }

  // ---------------------------------------------------------------- pools and claims

  /** Every pool holds its opening balance plus its reservations, and never more than its total,
      whichever leases were lost on the way. */
  lemma PoolsConserve(p: Checks, dbs: seq<Db>, actions: seq<Action>, k: nat, q: string)
    requires History(p, dbs, actions) && k < |dbs| && q in dbs[k].pools
    ensures dbs[k].pools[q].reserved == dbs[k].pools[q].opening + Reserved(dbs[k].reservations, q)
    ensures dbs[k].pools[q].reserved <= dbs[k].pools[q].total
  {
    InvHolds(p, dbs, actions, k);
    assert PoolSound(dbs[k].reservations, q, dbs[k].pools[q]);
  }

  /** A batch has a claim exactly from APPROVED onwards; then it has one claim, which is its current
      one, one reservation, of its own weight, and a decision that matched it. */
  lemma OneClaimPerBatch(p: Checks, dbs: seq<Db>, actions: seq<Action>, k: nat, id: string)
    requires History(p, dbs, actions) && k < |dbs| && id in dbs[k].cases && dbs[k].cases[id].status in CLAIMED
    ensures dbs[k].cases[id].details.Some? && |dbs[k].reservations| == |dbs[k].claims|
    ensures exists i :: 0 <= i < |dbs[k].claims| && dbs[k].claims[i].batchId == id &&
              dbs[k].cases[id].claim == Some(dbs[k].claims[i].id) &&
              dbs[k].reservations[i].claimId == dbs[k].claims[i].id &&
              dbs[k].reservations[i].kg == p.weigh(dbs[k].cases[id].details.value)
    ensures forall i, j :: 0 <= i < j < |dbs[k].claims| ==> dbs[k].claims[i].batchId != dbs[k].claims[j].batchId
    ensures forall i, j :: 0 <= i < j < |dbs[k].reservations| ==> dbs[k].reservations[i].claimId != dbs[k].reservations[j].claimId
  {
    InvHolds(p, dbs, actions, k);
    var db := dbs[k];
    assert CaseSound(db.cases[id]);
    assert Claimed(db, id);
    var i :| 0 <= i < |db.claims| && db.claims[i].batchId == id;
    assert ClaimSound(p, db, db.claims[i], db.reservations[i]);
    forall i, j | 0 <= i < j < |db.reservations| ensures db.reservations[i].claimId != db.reservations[j].claimId {
      assert ClaimSound(p, db, db.claims[i], db.reservations[i]) && ClaimSound(p, db, db.claims[j], db.reservations[j]);
    }
  }

  /** A claim names the one matched decision of its batch, the claimant is a matched candidate of that
      decision, and the reserved pool is that candidate's own. */
  lemma ClaimRestsOnOnlyMatch(p: Checks, dbs: seq<Db>, actions: seq<Action>, k: nat, i: nat)
    requires History(p, dbs, actions) && k < |dbs| && i < |dbs[k].claims|
    ensures |dbs[k].reservations| == |dbs[k].claims| && dbs[k].claims[i].batchId in dbs[k].cases
    ensures var ds := dbs[k].cases[dbs[k].claims[i].batchId].decisions;
            exists j :: 0 <= j < |ds| && Backs(ds[j], dbs[k].claims[i], dbs[k].reservations[i]) &&
              forall l :: 0 <= l < |ds| && ds[l].matched ==> l == j
  {
    InvHolds(p, dbs, actions, k);
    var db := dbs[k];
    assert ClaimSound(p, db, db.claims[i], db.reservations[i]);
    var c := db.cases[db.claims[i].batchId];
    assert CaseSound(c);
    var j :| 0 <= j < |c.decisions| && Backs(c.decisions[j], db.claims[i], db.reservations[i]);
  }

  // ---------------------------------------------------------------- idempotency

  // A first call whose answer does not depend on a later look at the command row.
  predicate Undisturbed(r: Request, o: Oracle) { r.ClaimBatch? ==> o.race.landing == Landed && !o.race.renewalFailed }

  // What a call writes, in three parts that do not mention each other.
  lemma CallWrites(p: Checks, db: Db, m: Meta, r: Request, o: Oracle, draw: Draw)
    requires Call(p, db, m, r, o, draw).0 != db
    ensures KeyOf(m, r) !in db.commands && Execute(p, db, m, r, o, draw).Ok? && Execute(p, db, m, r, o, draw).value.Recorded?
    ensures Call(p, db, m, r, o, draw).0 ==
            Execute(p, db, m, r, o, draw).value.db
              .(commands := db.commands[KeyOf(m, r) := Command(r, Execute(p, db, m, r, o, draw).value.reply)])
  {
  }

  lemma CallCommands(p: Checks, db: Db, m: Meta, r: Request, o: Oracle, draw: Draw)
    requires Inv(p, db)
    ensures var (after, answer) := Call(p, db, m, r, o, draw);
            && (forall x :: x in db.commands ==> x in after.commands && after.commands[x] == db.commands[x])
            && (after != db ==>
                  && KeyOf(m, r) !in db.commands && KeyOf(m, r) in after.commands
                  && after.commands[KeyOf(m, r)].request == r
                  && (answer.Ok? ==> answer.value.reply == after.commands[KeyOf(m, r)].reply)
                  && (answer.Ok? <==> Undisturbed(r, o) || o.race.actorStill))
  {
    if Call(p, db, m, r, o, draw).0 != db {
      CallWrites(p, db, m, r, o, draw);
      CallTells(p, db, m, r, o, draw);
    }
  }

  // How a call that wrote is answered.
  lemma CallTells(p: Checks, db: Db, m: Meta, r: Request, o: Oracle, draw: Draw)
    requires Call(p, db, m, r, o, draw).0 != db && KeyOf(m, r) !in db.commands
    ensures var answer := Call(p, db, m, r, o, draw).1;
            && Execute(p, db, m, r, o, draw).Ok?
            && (answer.Ok? ==> answer.value.reply == Execute(p, db, m, r, o, draw).value.reply)
            && (answer.Ok? <==> Undisturbed(r, o) || o.race.actorStill)
  {
  }

  lemma CommandAt(p: Checks, dbs: seq<Db>, actions: seq<Action>, i: nat, x: CommandKey)
    requires History(p, dbs, actions) && i < |actions| && x in dbs[i].commands
    ensures x in dbs[i + 1].commands && dbs[i + 1].commands[x] == dbs[i].commands[x]
  {
    InvHolds(p, dbs, actions, i);
    StepAt(p, dbs, actions, i);
    match actions[i]
    case Invoke(m, r, o, draw) => CallCommands(p, dbs[i], m, r, o, draw);
    case Match(batchId, decisionId, matched, rows) => MatchKeeps(p, dbs[i], batchId, decisionId, matched, rows);
  }

  lemma {:induction false} CommandsStay(p: Checks, dbs: seq<Db>, actions: seq<Action>, i: nat, j: nat, x: CommandKey)
    requires History(p, dbs, actions) && i <= j < |dbs| && x in dbs[i].commands
    ensures x in dbs[j].commands && dbs[j].commands[x] == dbs[i].commands[x]
    decreases j
  {
    if i < j {
      CommandsStay(p, dbs, actions, i, j - 1, x);
      CommandAt(p, dbs, actions, j - 1, x);
    }
  }

  // The call at this position uses this scope, command and key.
  predicate Uses(actions: seq<Action>, i: nat, x: CommandKey) {
    i < |actions| && actions[i].Invoke? && KeyOf(actions[i].meta, actions[i].request) == x
  }

  // A repeated acknowledgement under an unused key, of a batch that holds a result of that source
  // event: it is answered from the result and leaves its key unused.
  predicate Echoes(db: Db, m: Meta, r: Request) {
    && r.Acknowledge? && KeyOf(m, r) !in db.commands && r.batchId in db.cases
    && db.cases[r.batchId].results != [] && db.cases[r.batchId].results[0].ack.sourceEventId == r.ack.sourceEventId
  }

  lemma CallStores(p: Checks, db: Db, m: Meta, r: Request, o: Oracle, draw: Draw)
    requires Inv(p, db) && Call(p, db, m, r, o, draw).1.Ok?
    ensures var (after, answer) := Call(p, db, m, r, o, draw);
            && (KeyOf(m, r) in after.commands && after.commands[KeyOf(m, r)] == Command(r, answer.value.reply) <==>
                !Echoes(db, m, r))
            && (Echoes(db, m, r) ==> after == db)
  {
  }

  lemma StoredCallReplays(p: Checks, db: Db, m: Meta, r: Request, o: Oracle, draw: Draw)
    requires KeyOf(m, r) in db.commands
    ensures var (after, answer) := Call(p, db, m, r, o, draw);
            && after == db
            && (Admitted(p, r, o) ==>
                  answer == if db.commands[KeyOf(m, r)].request == r then Ok(Answer(db.commands[KeyOf(m, r)].reply, true))
                            else Err(IdempotencyConflict))
            && (!Admitted(p, r, o) ==> answer in {Err(ValidationFailed), Err(Forbidden)})
  {
  }

  function AnswerAt(p: Checks, dbs: seq<Db>, actions: seq<Action>, i: nat): Result<Answer, Error>
    requires i < |actions| && i < |dbs| && actions[i].Invoke?
  {
    Call(p, dbs[i], actions[i].meta, actions[i].request, actions[i].oracle, actions[i].draw).1
  }

  // What a later admitted call of the key is answered, when this request and reply are stored.
  predicate Replays(p: Checks, dbs: seq<Db>, actions: seq<Action>, j: nat, stored: Command)
    requires j < |actions| < |dbs| && actions[j].Invoke?
  {
    && dbs[j + 1] == dbs[j]
    && (Admitted(p, actions[j].request, actions[j].oracle) ==>
          AnswerAt(p, dbs, actions, j) ==
          if actions[j].request == stored.request then Ok(Answer(stored.reply, true)) else Err(IdempotencyConflict))
    && (!Admitted(p, actions[j].request, actions[j].oracle) ==>
          AnswerAt(p, dbs, actions, j) in {Err(ValidationFailed), Err(Forbidden)})
  }

  lemma KeptCommandReplays(p: Checks, dbs: seq<Db>, actions: seq<Action>, i: nat, j: nat, x: CommandKey)
    requires History(p, dbs, actions) && i <= j && Uses(actions, j, x) && x in dbs[i].commands
    ensures Replays(p, dbs, actions, j, dbs[i].commands[x])
  {
    CommandsStay(p, dbs, actions, i, j, x);
    StepAt(p, dbs, actions, j);
    StoredCallReplays(p, dbs[j], actions[j].meta, actions[j].request, actions[j].oracle, actions[j].draw);
  }

  /** Calls that share scope, command and key change the state at most once. */
  lemma OneChangePerKey(p: Checks, dbs: seq<Db>, actions: seq<Action>, i: nat, j: nat, x: CommandKey)
    requires History(p, dbs, actions) && i < j && Uses(actions, i, x) && Uses(actions, j, x)
    requires dbs[i + 1] != dbs[i]
    ensures dbs[j + 1] == dbs[j]
  {
    InvHolds(p, dbs, actions, i);
    StepAt(p, dbs, actions, i);
    CallCommands(p, dbs[i], actions[i].meta, actions[i].request, actions[i].oracle, actions[i].draw);
    KeptCommandReplays(p, dbs, actions, i + 1, j, x);
  }

  /** In every history a successful call leaves its request and its reply under its key, exactly when
      it does not echo a stored result; an echoing call changes nothing. */
  lemma SuccessIsStored(p: Checks, dbs: seq<Db>, actions: seq<Action>, i: nat, x: CommandKey)
    requires History(p, dbs, actions) && Uses(actions, i, x) && AnswerAt(p, dbs, actions, i).Ok?
    ensures x in dbs[i + 1].commands &&
            dbs[i + 1].commands[x] == Command(actions[i].request, AnswerAt(p, dbs, actions, i).value.reply) <==>
            !Echoes(dbs[i], actions[i].meta, actions[i].request)
    ensures Echoes(dbs[i], actions[i].meta, actions[i].request) ==> dbs[i + 1] == dbs[i]
  {
    InvHolds(p, dbs, actions, i);
    StepAt(p, dbs, actions, i);
    CallStores(p, dbs[i], actions[i].meta, actions[i].request, actions[i].oracle, actions[i].draw);
  }

  /** After any successful call of a key that did not echo a result, every later call of it changes
      nothing; an admitted one is answered with the same reply when it sends the same request, and
      with a conflict when it sends another. */
  lemma LaterCallsReplay(p: Checks, dbs: seq<Db>, actions: seq<Action>, i: nat, j: nat, x: CommandKey)
    requires History(p, dbs, actions) && i < j && Uses(actions, i, x) && Uses(actions, j, x)
    requires AnswerAt(p, dbs, actions, i).Ok? && !Echoes(dbs[i], actions[i].meta, actions[i].request)
    ensures Replays(p, dbs, actions, j, Command(actions[i].request, AnswerAt(p, dbs, actions, i).value.reply))
  {
    SuccessIsStored(p, dbs, actions, i, x);
    KeptCommandReplays(p, dbs, actions, i + 1, j, x);
  }

  // ---------------------------------------------------------------- claims that lose their lease

  // The answer of a claim whose resolveReplay reads the state at a later position.
  function LateAnswer(p: Checks, dbs: seq<Db>, actions: seq<Action>, i: nat, j: nat): Result<Answer, Error>
    requires i < |actions| && i < |dbs| && j < |dbs| && actions[i].Invoke?
  {
    var a := actions[i];
    Settled(Reported(a.oracle.race, Transacted(p, dbs[i], a.meta, a.request, a.oracle, a.draw).1), dbs[j], a.meta, a.request,
            a.oracle.race.actorStill)
  }

  // A first claim that got its lease.
  predicate Leased(p: Checks, dbs: seq<Db>, actions: seq<Action>, i: nat)
    requires i < |actions| && i < |dbs|
  {
    && actions[i].Invoke? && actions[i].request.ClaimBatch? && KeyOf(actions[i].meta, actions[i].request) !in dbs[i].commands
    && Admitted(p, actions[i].request, actions[i].oracle) && actions[i].oracle.race.acquire == LeaseHeld
  }

  // The one answer the durable command row allows.
  predicate AnswersRow(db: Db, m: Meta, r: Request, answer: Result<Answer, Error>) {
    if KeyOf(m, r) !in db.commands then answer.Err?
    else if db.commands[KeyOf(m, r)].request != r then answer == Err(IdempotencyConflict)
    else answer.Ok? && answer.value.reply == db.commands[KeyOf(m, r)].reply
  }

  lemma ClaimLeaves(p: Checks, db: Db, m: Meta, r: Request, o: Oracle, draw: Draw)
    requires Inv(p, db) && r.ClaimBatch? && KeyOf(m, r) !in db.commands && Admitted(p, r, o) && o.race.acquire == LeaseHeld
    ensures var (after, own) := (Call(p, db, m, r, o, draw).0, Transacted(p, db, m, r, o, draw).1);
            && (after == db <==> o.race.landing == RolledBack || own.Err?)
            && (after != db ==> KeyOf(m, r) in after.commands && after.commands[KeyOf(m, r)] == Command(r, own.value.reply))
  {
    if Execute(p, db, m, r, o, draw).Ok? { ExecuteKeeps(p, db, m, r, o, draw); }
  }

  /** Whatever becomes of the lease, of the commit and of its acknowledgement, and whatever others do
      before the service looks again: a claim that was not acknowledged is answered by the durable
      command row, with the stored result, a conflict, or an error when nothing is stored, unless its
      actor is refused by then. So a claim that committed is answered with its own result, and one
      that was rolled back left no trace. */
  lemma RacedClaimAnswers(p: Checks, dbs: seq<Db>, actions: seq<Action>, i: nat, j: nat)
    requires History(p, dbs, actions) && i < |actions| && i < j < |dbs| && Leased(p, dbs, actions, i)
    ensures if (Undisturbed(actions[i].request, actions[i].oracle) && dbs[i + 1] != dbs[i]) || actions[i].oracle.race.actorStill
            then AnswersRow(dbs[j], actions[i].meta, actions[i].request, LateAnswer(p, dbs, actions, i, j))
            else LateAnswer(p, dbs, actions, i, j) == Err(Forbidden)
    ensures dbs[i + 1] != dbs[i] && actions[i].oracle.race.actorStill ==>
              && KeyOf(actions[i].meta, actions[i].request) in dbs[i + 1].commands
              && LateAnswer(p, dbs, actions, i, j).Ok?
              && LateAnswer(p, dbs, actions, i, j).value.reply ==
                 dbs[i + 1].commands[KeyOf(actions[i].meta, actions[i].request)].reply
    ensures actions[i].oracle.race.landing == RolledBack ==> dbs[i + 1] == dbs[i]
  {
    var a := actions[i];
    var x := KeyOf(a.meta, a.request);
    InvHolds(p, dbs, actions, i);
    StepAt(p, dbs, actions, i);
    ClaimLeaves(p, dbs[i], a.meta, a.request, a.oracle, a.draw);
    if dbs[i + 1] != dbs[i] { CommandsStay(p, dbs, actions, i + 1, j, x); }
  }

  // ---------------------------------------------------------------- completion

  /** COMPLETED holds exactly when one analytics result exists, made from the version before. */
  lemma CompletedExactlyOnce(p: Checks, dbs: seq<Db>, actions: seq<Action>, k: nat, id: string)
    requires History(p, dbs, actions) && k < |dbs| && id in dbs[k].cases
    ensures var c := dbs[k].cases[id];
            && |c.results| <= 1
            && (c.status == Completed <==> |c.results| == 1 && c.results[0].ack.sourceVersion == c.version - 1)
            && (c.results != [] ==>
                  c.source.Some? && c.results[0].ack.sourceEventId == c.source.value.eventId &&
                  c.results[0].ack.input == Impact.CanonicalInput(c.source.value))
  {
    InvHolds(p, dbs, actions, k);
    assert CaseSound(dbs[k].cases[id]);
  }

  // ---------------------------------------------------------------- only matching decides

  predicate SameDecisions(db: Db, after: Db, id: string) {
    id in after.cases && after.cases[id].decisions == if id in db.cases then db.cases[id].decisions else []
  }

  lemma BatchDecidesNothing(p: Checks, db: Db, m: Meta, r: Request, o: Oracle, draw: Draw, id: string)
    requires r.EditDraft? || r.Submit? || r.VerifyReceipt? || r.RecordTreatment?
    requires id in db.cases && BatchStep(p, db, m, r, o, draw).Ok?
    ensures SameDecisions(db, BatchStep(p, db, m, r, o, draw).value.0, id)
  {
    assert BatchNext(p, db, m, r, o, draw).value.decisions == db.cases[r.batchId].decisions;
  }

  lemma AssignmentDecidesNothing(db: Db, m: Meta, r: Request, draw: Draw, id: string)
    requires r.AcceptAssignment? || r.RejectAssignment? || r.RecordHandoff? || r.FailPickup? || r.RecoverCollection?
    requires id in db.cases && AssignmentStep(db, m, r, draw).Ok?
    ensures SameDecisions(db, AssignmentStep(db, m, r, draw).value.0, id)
  {
    var (x, i) := Located(db, r.assignmentId).value;
    assert AssignmentNext(db.cases[x], i, ActorOf(m), r, draw.rowId).value.decisions == db.cases[x].decisions;
  }

  lemma ClaimDecidesNothing(p: Checks, db: Db, m: Meta, batchId: string, expected: int, epoch: int, o: Oracle, draw: Draw, id: string)
    requires id in db.cases && ClaimStep(p, db, m, batchId, expected, epoch, o, draw).Ok?
    ensures SameDecisions(db, ClaimStep(p, db, m, batchId, expected, epoch, o, draw).value.0, id)
  {
  }

  lemma SelectDecidesNothing(db: Db, m: Meta, batchId: string, expected: int, epoch: int, scopeId: string, o: Oracle, draw: Draw, id: string)
    requires id in db.cases && SelectStep(db, m, batchId, expected, epoch, scopeId, o, draw).Ok?
    ensures SameDecisions(db, SelectStep(db, m, batchId, expected, epoch, scopeId, o, draw).value.0, id)
  {
  }

  lemma ExecuteDecidesNothing(p: Checks, db: Db, m: Meta, r: Request, o: Oracle, draw: Draw, id: string)
    requires Execute(p, db, m, r, o, draw).Ok? && Execute(p, db, m, r, o, draw).value.Recorded?
    requires id in Execute(p, db, m, r, o, draw).value.db.cases && (id in db.cases || r.CreateDraft?)
    ensures SameDecisions(db, Execute(p, db, m, r, o, draw).value.db, id)
  {
    match r
    case EditDraft(_, _, _) => BatchDecidesNothing(p, db, m, r, o, draw, id);
    case Submit(_, _) => BatchDecidesNothing(p, db, m, r, o, draw, id);
    case VerifyReceipt(_, _, _) => BatchDecidesNothing(p, db, m, r, o, draw, id);
    case RecordTreatment(_, _, _) => BatchDecidesNothing(p, db, m, r, o, draw, id);
    case CreateDraft(_) =>
    case ClaimBatch(batchId, expected, epoch, _) => ClaimDecidesNothing(p, db, m, batchId, expected, epoch, o, draw, id);
    case SelectCollector(batchId, expected, epoch, scopeId) =>
      SelectDecidesNothing(db, m, batchId, expected, epoch, scopeId, o, draw, id);
    case Acknowledge(_, _, _) =>
    case _ => AssignmentDecidesNothing(db, m, r, draw, id);
  }

  // A batch that was not there before has been created.
  lemma OnlyCreationAdds(p: Checks, db: Db, m: Meta, r: Request, o: Oracle, draw: Draw, id: string)
    requires Execute(p, db, m, r, o, draw).Ok? && Execute(p, db, m, r, o, draw).value.Recorded?
    requires id in Execute(p, db, m, r, o, draw).value.db.cases && id !in db.cases
    ensures r.CreateDraft?
  {
  }

  /** Commands record no matching decision. */
  lemma CommandsDecideNothing(p: Checks, db: Db, m: Meta, r: Request, o: Oracle, draw: Draw, id: string)
    requires id in Call(p, db, m, r, o, draw).0.cases
    ensures SameDecisions(db, Call(p, db, m, r, o, draw).0, id)
  {
    var after := Call(p, db, m, r, o, draw).0;
    if after != db {
      assert after.cases == Execute(p, db, m, r, o, draw).value.db.cases;
      if id !in db.cases { OnlyCreationAdds(p, db, m, r, o, draw, id); }
      ExecuteDecidesNothing(p, db, m, r, o, draw, id);
    }
  }

  // ---------------------------------------------------------------- what the matching store sees

  function RowOf(c: Case): MatchingStore.BatchRow { MatchingStore.BatchRow(c.status, c.version, c.epoch, c.details) }

  lemma AdvanceEvolves(c: Case, next: Case)
    requires Advances(c, next)
    ensures StoreRuns.RowEvolves(RowOf(c), RowOf(next))
  {
  }

  /** The matching store may treat every workflow command as its environment: a batch row changes only
      together with a higher version. */
  lemma WorkflowIsEnvironment(p: Checks, dbs: seq<Db>, actions: seq<Action>, i: nat, id: string)
    requires History(p, dbs, actions) && i < |actions| && id in dbs[i].cases
    ensures id in dbs[i + 1].cases && StoreRuns.RowEvolves(RowOf(dbs[i].cases[id]), RowOf(dbs[i + 1].cases[id]))
  {
    AdvanceAt(p, dbs, actions, i, id);
    if dbs[i + 1].cases[id] != dbs[i].cases[id] { AdvanceEvolves(dbs[i].cases[id], dbs[i + 1].cases[id]); }
  }
}
