/** What every history of commands keeps, across batches, pools, claims and stored results. */
module WorkflowRuns {
  import opened Wrappers
  import opened BatchCase
  import opened CaseInvariant
  import opened Workflow
  import Impact

  datatype Action =
    | Invoke(meta: Meta, request: Request, oracle: Oracle, draw: Draw)
    | Match(batchId: string, decisionId: string, matched: bool, rows: seq<MatchedRow>)

  // ---------------------------------------------------------------- the invariant

  function Reserved(rs: seq<Reservation>, poolId: string): int {
    if rs == [] then 0
    else Reserved(rs[..|rs| - 1], poolId) + if rs[|rs| - 1].poolId == poolId then rs[|rs| - 1].kg else 0
  }

  ghost predicate PoolSound(rs: seq<Reservation>, poolId: string, pool: LivePool) {
    pool.reserved == pool.opening + Reserved(rs, poolId) && pool.reserved <= pool.total
  }

  ghost predicate PoolsSound(db: Db) {
    && (forall q :: q in db.pools ==> PoolSound(db.reservations, q, db.pools[q]))
    && (forall i :: 0 <= i < |db.reservations| ==> db.reservations[i].poolId in db.pools)
  }

  // The claim names this matched decision, and reserved the pool of its own matched row.
  ghost predicate Backs(d: MatchDecision, k: Claim, r: Reservation) {
    d.id == k.decisionId && d.matched && exists n: nat :: Offers(d, k.recycler.org, n) && d.rows[n].poolId == Some(r.poolId)
  }

  // A claim is its batch's current one, rests on the batch's matched decision, and has its reservation.
  ghost predicate ClaimSound(p: Checks, db: Db, k: Claim, r: Reservation) {
    && k.batchId in db.cases && db.cases[k.batchId].claim == Some(k.id) && k.epoch == db.cases[k.batchId].epoch
    && db.cases[k.batchId].details.Some?
    && r.claimId == k.id && r.batchId == k.batchId && r.kg == p.weigh(db.cases[k.batchId].details.value)
    && exists j :: 0 <= j < |db.cases[k.batchId].decisions| && Backs(db.cases[k.batchId].decisions[j], k, r)
  }

  ghost predicate Claimed(db: Db, id: string) { exists i :: 0 <= i < |db.claims| && db.claims[i].batchId == id }

  ghost predicate ClaimsSound(p: Checks, db: Db) {
    && |db.reservations| == |db.claims|
    && (forall i :: 0 <= i < |db.claims| ==> ClaimSound(p, db, db.claims[i], db.reservations[i]))
    && (forall i, j :: 0 <= i < j < |db.claims| ==>
          db.claims[i].batchId != db.claims[j].batchId && db.claims[i].id != db.claims[j].id && db.claims[i].key != db.claims[j].key)
    && (forall id {:trigger Claimed(db, id)} :: id in db.cases && db.cases[id].claim.Some? ==> Claimed(db, id))
  }

  // The row an assignment id leads to.
  ghost predicate Indexed(db: Db, a: string) {
    a in db.assignmentBatch && db.assignmentBatch[a] in db.cases && AssignmentKnown(db.cases[db.assignmentBatch[a]], a)
  }

  ghost predicate IndexSound(db: Db) {
    && (forall a {:trigger Indexed(db, a)} :: a in db.assignmentBatch ==> Indexed(db, a))
    && (forall id, i :: id in db.cases && 0 <= i < |db.cases[id].assignments| ==>
          db.cases[id].assignments[i].id in db.assignmentBatch && db.assignmentBatch[db.cases[id].assignments[i].id] == id)
  }

  ghost predicate CasesSound(db: Db) { forall id {:trigger CaseSound(db.cases[id])} :: id in db.cases ==> CaseSound(db.cases[id]) }

  ghost predicate Inv(p: Checks, db: Db) { CasesSound(db) && PoolsSound(db) && ClaimsSound(p, db) && IndexSound(db) }

  ghost predicate Initial(db: Db) {
    && db.cases == map[] && db.assignmentBatch == map[] && db.claims == [] && db.reservations == [] && db.commands == map[]
    && forall q :: q in db.pools ==> db.pools[q].reserved == db.pools[q].opening <= db.pools[q].total
  }

  // ---------------------------------------------------------------- effects

  // One case is added bare, or rewritten with its claim and the identities of its assignments kept.
  ghost predicate Rewrites(db: Db, after: Db, id: string) {
    && id in after.cases && after.cases == db.cases[id := after.cases[id]]
    && (if id in db.cases then KeepsRows(db.cases[id], after.cases[id]) && db.cases[id].decisions <= after.cases[id].decisions &&
                               after.cases[id].epoch == db.cases[id].epoch
        else after.cases[id].claim.None? && after.cases[id].assignments == [])
    && after.pools == db.pools && after.claims == db.claims && after.reservations == db.reservations
    && after.assignmentBatch == db.assignmentBatch && after.commands == db.commands
  }

  lemma ClaimedStays(db: Db, after: Db)
    requires forall id {:trigger Claimed(db, id)} :: id in db.cases && db.cases[id].claim.Some? ==> Claimed(db, id)
    requires after.claims == db.claims
    requires forall id :: id in after.cases && after.cases[id].claim.Some? ==> id in db.cases && db.cases[id].claim.Some?
    ensures forall id {:trigger Claimed(after, id)} :: id in after.cases && after.cases[id].claim.Some? ==> Claimed(after, id)
  {
    forall id | id in after.cases && after.cases[id].claim.Some? ensures Claimed(after, id) {
      assert Claimed(db, id);
      var i :| 0 <= i < |db.claims| && db.claims[i].batchId == id;
      assert after.claims[i].batchId == id;
    }
  }

  lemma RewriteKeepsClaims(p: Checks, db: Db, after: Db, id: string)
    requires ClaimsSound(p, db) && Rewrites(db, after, id)
    ensures ClaimsSound(p, after)
  {
    forall i | 0 <= i < |after.claims| ensures ClaimSound(p, after, after.claims[i], after.reservations[i]) {
      assert ClaimSound(p, db, db.claims[i], db.reservations[i]);
      var c := db.cases[db.claims[i].batchId];
      var j :| 0 <= j < |c.decisions| && Backs(c.decisions[j], db.claims[i], db.reservations[i]);
      assert after.cases[db.claims[i].batchId].decisions[j] == c.decisions[j];
    }
    ClaimedStays(db, after);
  }

  lemma RewriteKeepsIndex(db: Db, after: Db, id: string)
    requires IndexSound(db) && Rewrites(db, after, id)
    ensures IndexSound(after)
  {
    forall a | a in after.assignmentBatch ensures Indexed(after, a) {
      assert Indexed(db, a);
      var c := db.cases[db.assignmentBatch[a]];
      var i :| 0 <= i < |c.assignments| && c.assignments[i].id == a;
      assert after.cases[db.assignmentBatch[a]].assignments[i].id == a;
    }
    forall x, i | x in after.cases && 0 <= i < |after.cases[x].assignments|
      ensures after.cases[x].assignments[i].id in after.assignmentBatch
      ensures after.assignmentBatch[after.cases[x].assignments[i].id] == x
    {
      assert after.cases[x].assignments[i].id == db.cases[x].assignments[i].id;
    }
  }

  lemma RewriteKeeps(p: Checks, db: Db, after: Db, id: string)
    requires Inv(p, db) && Rewrites(db, after, id) && CaseSound(after.cases[id])
    ensures Inv(p, after)
  {
    RewriteKeepsClaims(p, db, after, id);
    RewriteKeepsIndex(db, after, id);
  }

  lemma CreateRewrites(db: Db, id: string, donor: Actor, columns: Columns)
    requires id !in db.cases
    ensures Rewrites(db, WithCase(db, id, Created(donor, columns)), id) && CaseSound(Created(donor, columns))
  {
  }

  // What the transactions on one batch make of it.
  function BatchNext(p: Checks, db: Db, m: Meta, r: Request, o: Oracle, draw: Draw): Result<Case, Error>
    requires (r.EditDraft? || r.Submit? || r.VerifyReceipt? || r.RecordTreatment?) && r.batchId in db.cases
  {
    var id, c, actor := r.batchId, db.cases[r.batchId], ActorOf(m);
    match r
    case EditDraft(_, expected, columns) => Edited(c, actor, expected, columns)
    case Submit(_, expected) => SubmittedAt(c, actor, expected, p.submittable, draw.now)
    case VerifyReceipt(_, expected, figures) =>
      ReceiptTaken(c, actor, expected, ClaimInScope(db, id, c, actor.org), figures, draw.rowId)
    case RecordTreatment(_, expected, request) =>
      Treated(c, id, actor, expected, ClaimInScope(db, id, c, actor.org), o.evidenceOk,
              if c.receipt.Some? then p.normalize(request, c.receipt.value.figures.weightKg) else Err(Impact.ReceivedWeightInvalid),
              p.ruleVersion, draw.rowId, draw.eventId, m.correlationId)
  }

  lemma BatchNextSound(p: Checks, db: Db, m: Meta, r: Request, o: Oracle, draw: Draw)
    requires (r.EditDraft? || r.Submit? || r.VerifyReceipt? || r.RecordTreatment?) && r.batchId in db.cases
    requires CaseSound(db.cases[r.batchId]) && BatchNext(p, db, m, r, o, draw).Ok?
    ensures var c, next := db.cases[r.batchId], BatchNext(p, db, m, r, o, draw).value;
            CaseSound(next) && Advances(c, next) && KeepsRows(c, next)
  {
    var id, c, actor := r.batchId, db.cases[r.batchId], ActorOf(m);
    match r
    case EditDraft(_, expected, columns) => EditedSound(c, actor, expected, columns);
    case Submit(_, expected) => SubmittedSound(c, actor, expected, p.submittable, draw.now);
    case VerifyReceipt(_, expected, figures) =>
      ReceiptSound(c, actor, expected, ClaimInScope(db, id, c, actor.org), figures, draw.rowId);
    case RecordTreatment(_, expected, request) =>
      TreatedSound(c, id, actor, expected, ClaimInScope(db, id, c, actor.org), o.evidenceOk,
                   if c.receipt.Some? then p.normalize(request, c.receipt.value.figures.weightKg) else Err(Impact.ReceivedWeightInvalid),
                   p.ruleVersion, draw.rowId, draw.eventId, m.correlationId);
  }

  // What the collector and recovery commands make of the batch of the assignment.
  function AssignmentNext(c: Case, i: nat, actor: Actor, r: Request, rowId: string): Result<Case, Error>
    requires r.AcceptAssignment? || r.RejectAssignment? || r.RecordHandoff? || r.FailPickup? || r.RecoverCollection?
    requires i < |c.assignments|
  {
    match r
    case AcceptAssignment(_, expected) => AcceptedBy(c, i, actor, expected)
    case RejectAssignment(_, expected, _) => RejectedBy(c, i, actor, expected)
    case RecordHandoff(_, expected, pickupAt) => PickedUp(c, i, actor, expected, Some(pickupAt), rowId)
    case FailPickup(_, expected, _) => PickedUp(c, i, actor, expected, None, rowId)
    case RecoverCollection(_) => Recovered(c, i)
  }

  lemma AssignmentNextSound(c: Case, i: nat, actor: Actor, r: Request, rowId: string)
    requires r.AcceptAssignment? || r.RejectAssignment? || r.RecordHandoff? || r.FailPickup? || r.RecoverCollection?
    requires i < |c.assignments| && CaseSound(c) && AssignmentNext(c, i, actor, r, rowId).Ok?
    ensures var next := AssignmentNext(c, i, actor, r, rowId).value; CaseSound(next) && Advances(c, next) && KeepsRows(c, next)
  {
    match r
    case AcceptAssignment(_, expected) => AcceptedSound(c, i, actor, expected);
    case RejectAssignment(_, expected, _) => RejectedSound(c, i, actor, expected);
    case RecordHandoff(_, expected, pickupAt) => PickedUpSound(c, i, actor, expected, Some(pickupAt), rowId);
    case FailPickup(_, expected, _) => PickedUpSound(c, i, actor, expected, None, rowId);
    case RecoverCollection(_) => RecoveredSound(c, i);
  }

  // Executing a request that concerns one batch, other than a claim or a selection.
  ghost predicate Transits(db: Db, after: Db, id: string) {
    && Rewrites(db, after, id) && CaseSound(after.cases[id])
    && (id in db.cases ==> Advances(db.cases[id], after.cases[id]))
    && (id !in db.cases ==> exists donor, columns :: after.cases[id] == Created(donor, columns))
  }

  lemma BatchTransits(p: Checks, db: Db, m: Meta, r: Request, o: Oracle, draw: Draw)
    requires (r.EditDraft? || r.Submit? || r.VerifyReceipt? || r.RecordTreatment?) && BatchStep(p, db, m, r, o, draw).Ok?
    requires CasesSound(db)
    ensures Transits(db, BatchStep(p, db, m, r, o, draw).value.0, r.batchId)
  {
    BatchNextSound(p, db, m, r, o, draw);
  }

  lemma AssignmentTransits(db: Db, m: Meta, r: Request, draw: Draw)
    requires r.AcceptAssignment? || r.RejectAssignment? || r.RecordHandoff? || r.FailPickup? || r.RecoverCollection?
    requires AssignmentStep(db, m, r, draw).Ok? && CasesSound(db)
    ensures Located(db, r.assignmentId).Some?
    ensures Transits(db, AssignmentStep(db, m, r, draw).value.0, Located(db, r.assignmentId).value.0)
  {
    var (id, i) := Located(db, r.assignmentId).value;
    AssignmentNextSound(db.cases[id], i, ActorOf(m), r, draw.rowId);
  }

  lemma AcknowledgeTransits(p: Checks, db: Db, m: Meta, batchId: string, expected: int, ack: Acknowledgement, draw: Draw)
    requires AcknowledgeStep(p, db, m, batchId, expected, ack, draw).Ok?
    requires AcknowledgeStep(p, db, m, batchId, expected, ack, draw).value.Recorded?
    requires batchId in db.cases && CaseSound(db.cases[batchId])
    ensures Transits(db, AcknowledgeStep(p, db, m, batchId, expected, ack, draw).value.db, batchId)
  {
    var c := db.cases[batchId];
    CompletedSound(c, expected, ack, p.accepts, draw.rowId, draw.eventId, m.correlationId);
  }

  lemma MatchTransits(db: Db, batchId: string, decisionId: string, matched: bool, rows: seq<MatchedRow>)
    requires batchId in db.cases && CaseSound(db.cases[batchId]) && Decided(db.cases[batchId], decisionId, matched, rows).Ok?
    ensures Transits(db, WithCase(db, batchId, Decided(db.cases[batchId], decisionId, matched, rows).value), batchId)
  {
    DecidedSound(db.cases[batchId], decisionId, matched, rows);
  }

  // ---------------------------------------------------------------- select and claim

  // The shape of a selection's write.
  ghost predicate Selects(db: Db, after: Db, batchId: string, a: string) {
    && batchId in db.cases && batchId in after.cases && after.cases == db.cases[batchId := after.cases[batchId]]
    && a !in db.assignmentBatch && after.assignmentBatch == db.assignmentBatch[a := batchId]
    && |after.cases[batchId].assignments| == |db.cases[batchId].assignments| + 1
    && db.cases[batchId].assignments <= after.cases[batchId].assignments
    && after.cases[batchId].assignments[|db.cases[batchId].assignments|].id == a
    && after.cases[batchId].claim == db.cases[batchId].claim && after.cases[batchId].epoch == db.cases[batchId].epoch
    && after.cases[batchId].details == db.cases[batchId].details
    && after.cases[batchId].decisions == db.cases[batchId].decisions
    && after.pools == db.pools && after.claims == db.claims && after.reservations == db.reservations
    && after.commands == db.commands
  }

  lemma SelectSelects(db: Db, m: Meta, batchId: string, expected: int, epoch: int, scopeId: string, o: Oracle, draw: Draw)
    requires SelectStep(db, m, batchId, expected, epoch, scopeId, o, draw).Ok? && batchId in db.cases && CaseSound(db.cases[batchId])
    ensures var after := SelectStep(db, m, batchId, expected, epoch, scopeId, o, draw).value.0;
            && Selects(db, after, batchId, draw.assignmentId)
            && CaseSound(after.cases[batchId]) && Advances(db.cases[batchId], after.cases[batchId])
  {
    var i := AcceptedClaimIn(db, batchId, db.cases[batchId], |db.claims|);
    SelectedSound(db.cases[batchId], ActorOf(m), expected, epoch, scopeId, db.claims[i.value].recycler.org, draw.assignmentId, draw.now);
  }

  lemma SelectKeepsClaims(p: Checks, db: Db, after: Db, batchId: string, a: string)
    requires ClaimsSound(p, db) && Selects(db, after, batchId, a)
    ensures ClaimsSound(p, after)
  {
    forall i | 0 <= i < |after.claims| ensures ClaimSound(p, after, after.claims[i], after.reservations[i]) {
      assert ClaimSound(p, db, db.claims[i], db.reservations[i]);
    }
    ClaimedStays(db, after);
  }

  lemma SelectKeepsIndex(db: Db, after: Db, batchId: string, a: string)
    requires IndexSound(db) && Selects(db, after, batchId, a)
    ensures IndexSound(after)
  {
    var n := |db.cases[batchId].assignments|;
    forall x | x in after.assignmentBatch ensures Indexed(after, x) {
      if x != a {
        assert Indexed(db, x);
        var c := db.cases[db.assignmentBatch[x]];
        var i :| 0 <= i < |c.assignments| && c.assignments[i].id == x;
        assert after.cases[db.assignmentBatch[x]].assignments[i] == c.assignments[i];
      } else {
        assert after.cases[batchId].assignments[n].id == a;
      }
    }
    forall x, i | x in after.cases && 0 <= i < |after.cases[x].assignments|
      ensures after.cases[x].assignments[i].id in after.assignmentBatch
      ensures after.assignmentBatch[after.cases[x].assignments[i].id] == x
    {
      if x != batchId || i < n {
        assert after.cases[x].assignments[i] == db.cases[x].assignments[i];
        assert db.cases[x].assignments[i].id in db.assignmentBatch;
      }
    }
  }

  lemma SelectKeeps(p: Checks, db: Db, after: Db, batchId: string, a: string)
    requires Inv(p, db) && Selects(db, after, batchId, a) && CaseSound(after.cases[batchId])
    ensures Inv(p, after)
  {
    SelectKeepsClaims(p, db, after, batchId, a);
    SelectKeepsIndex(db, after, batchId, a);
  }

  // The shape of a claim's write.
  ghost predicate Claims(p: Checks, db: Db, after: Db, batchId: string, k: Claim, r: Reservation) {
    && batchId in db.cases && batchId in after.cases && after.cases == db.cases[batchId := after.cases[batchId]]
    && db.cases[batchId].claim.None? && db.cases[batchId].details.Some?
    && db.cases[batchId].decisions <= after.cases[batchId].decisions && after.cases[batchId].epoch == db.cases[batchId].epoch
    && after.cases[batchId].claim == Some(k.id) && after.cases[batchId].details == db.cases[batchId].details
    && after.cases[batchId].assignments == db.cases[batchId].assignments
    && k.batchId == batchId && k.epoch == db.cases[batchId].epoch
    && (exists j :: 0 <= j < |db.cases[batchId].decisions| && Backs(db.cases[batchId].decisions[j], k, r))
    && !ClaimKeyExists(db, k.key) && !ClaimTaken(db, k.id, batchId, k.epoch)
    && r.claimId == k.id && r.batchId == batchId && r.kg == p.weigh(db.cases[batchId].details.value)
    && r.poolId in db.pools && db.pools[r.poolId].total - db.pools[r.poolId].reserved >= r.kg
    && after.pools == Reserve(db, r.poolId, r.kg)
    && after.claims == db.claims + [k] && after.reservations == db.reservations + [r]
    && after.assignmentBatch == db.assignmentBatch && after.commands == db.commands
  }

  lemma ClaimWrites(p: Checks, db: Db, m: Meta, batchId: string, expected: int, epoch: int, o: Oracle, draw: Draw)
    requires ClaimStep(p, db, m, batchId, expected, epoch, o, draw).Ok? && batchId in db.cases && CaseSound(db.cases[batchId])
    ensures var after := ClaimStep(p, db, m, batchId, expected, epoch, o, draw).value.0;
            && |after.claims| == |db.claims| + 1 && |after.reservations| == |db.reservations| + 1
            && Claims(p, db, after, batchId, after.claims[|db.claims|], after.reservations[|db.reservations|])
            && CaseSound(after.cases[batchId]) && Advances(db.cases[batchId], after.cases[batchId])
  {
    var c := db.cases[batchId];
    var i := DecisionIndex(c, c.decisions).value;
    assert Offers(c.decisions[i], ActorOf(m).org, o.offer.value);
    var after := ClaimStep(p, db, m, batchId, expected, epoch, o, draw).value.0;
    assert Backs(c.decisions[i], after.claims[|db.claims|], after.reservations[|db.reservations|]);
  }

  lemma ClaimKeepsPools(p: Checks, db: Db, after: Db, batchId: string, k: Claim, r: Reservation)
    requires PoolsSound(db) && Claims(p, db, after, batchId, k, r)
    ensures PoolsSound(after)
  {
    forall q | q in after.pools ensures PoolSound(after.reservations, q, after.pools[q]) {
      assert PoolSound(db.reservations, q, db.pools[q]);
    }
  }

  // The new claim stands apart from every older one.
  lemma ClaimApart(p: Checks, db: Db, after: Db, batchId: string, k: Claim, r: Reservation, i: nat)
    requires ClaimsSound(p, db) && Claims(p, db, after, batchId, k, r) && i < |db.claims|
    ensures ClaimSound(p, after, db.claims[i], db.reservations[i])
    ensures db.claims[i].batchId != batchId && db.claims[i].id != k.id && db.claims[i].key != k.key
  {
    assert ClaimSound(p, db, db.claims[i], db.reservations[i]);
  }

  lemma ClaimsCover(p: Checks, db: Db, after: Db, batchId: string, k: Claim, r: Reservation, id: string)
    requires ClaimsSound(p, db) && Claims(p, db, after, batchId, k, r) && id in after.cases && after.cases[id].claim.Some?
    ensures Claimed(after, id)
  {
    if id == batchId {
      assert after.claims[|db.claims|].batchId == id;
    } else {
      assert Claimed(db, id);
      var i :| 0 <= i < |db.claims| && db.claims[i].batchId == id;
      assert after.claims[i].batchId == id;
    }
  }

  lemma ClaimKeepsClaims(p: Checks, db: Db, after: Db, batchId: string, k: Claim, r: Reservation)
    requires ClaimsSound(p, db) && Claims(p, db, after, batchId, k, r)
    ensures ClaimsSound(p, after)
  {
    var n := |db.claims|;
    forall i | 0 <= i < |after.claims|
      ensures ClaimSound(p, after, after.claims[i], after.reservations[i])
      ensures i < n ==>
                after.claims[i].batchId != after.claims[n].batchId && after.claims[i].id != after.claims[n].id &&
                after.claims[i].key != after.claims[n].key
    {
      if i < n { ClaimApart(p, db, after, batchId, k, r, i); }
    }
    forall id | id in after.cases && after.cases[id].claim.Some? ensures Claimed(after, id) {
      ClaimsCover(p, db, after, batchId, k, r, id);
    }
  }

  lemma ClaimKeepsIndex(p: Checks, db: Db, after: Db, batchId: string, k: Claim, r: Reservation)
    requires IndexSound(db) && Claims(p, db, after, batchId, k, r)
    ensures IndexSound(after)
  {
    forall a | a in after.assignmentBatch ensures Indexed(after, a) {
      assert Indexed(db, a);
    }
    forall x, i | x in after.cases && 0 <= i < |after.cases[x].assignments|
      ensures after.cases[x].assignments[i].id in after.assignmentBatch
      ensures after.assignmentBatch[after.cases[x].assignments[i].id] == x
    {
      assert after.cases[x].assignments[i] == db.cases[x].assignments[i];
    }
  }

  lemma ClaimKeeps(p: Checks, db: Db, after: Db, batchId: string, k: Claim, r: Reservation)
    requires Inv(p, db) && Claims(p, db, after, batchId, k, r) && CaseSound(after.cases[batchId])
    ensures Inv(p, after)
  {
    ClaimKeepsPools(p, db, after, batchId, k, r);
    ClaimKeepsClaims(p, db, after, batchId, k, r);
    ClaimKeepsIndex(p, db, after, batchId, k, r);
  }
}
