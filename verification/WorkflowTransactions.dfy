/** The workflow services as they run: rows are read, checked and rewritten in place inside one
    transaction, and a transaction that fails puts every row back. */
module WorkflowTransactions {
  import opened Wrappers
  import opened Vocabulary
  import opened BatchCase
  import opened Workflow
  import Impact

  // Only the command row's own insert touches that table.
  lemma CommandsUntouched(p: Checks, db: Db, m: Meta, r: Request, o: Oracle, draw: Draw)
    ensures match Execute(p, db, m, r, o, draw)
            case Ok(Recorded(after, _)) => after.commands == db.commands
            case _ => true
  {
  }

  class Tables {
    const checks: Checks
    var cases: map<string, Case>
    var assignmentBatch: map<string, string>
    var pools: map<string, LivePool>
    var claims: seq<Claim>
    var reservations: seq<Reservation>
    var commands: map<CommandKey, Command>

    ghost function State(): Db
      reads this
    {
      Db(cases, assignmentBatch, pools, claims, reservations, commands)
    }

    constructor (checks: Checks, pools: map<string, LivePool>)
      ensures this.checks == checks && State() == Db(map[], map[], pools, [], [], map[])
    {
      this.checks, this.pools := checks, pools;
      cases, assignmentBatch, claims, reservations, commands := map[], map[], [], [], map[];
    }

    // ---------------------------------------------------------------- queries

    method FindClaimKey(key: string) returns (found: bool)
      ensures found == ClaimKeyExists(State(), key)
    {
      for i := 0 to |claims|
        invariant forall k :: 0 <= k < i ==> claims[k].key != key
      {
        if claims[i].key == key { return true; }
      }
      return false;
    }

    // The unique keys of the claim table.
    method ClaimRowTaken(id: string, batchId: string, epoch: int) returns (taken: bool)
      ensures taken == ClaimTaken(State(), id, batchId, epoch)
    {
      for i := 0 to |claims|
        invariant forall k :: 0 <= k < i ==>
          claims[k].id != id && !(claims[k].batchId == batchId && claims[k].epoch == epoch)
      {
        if claims[i].id == id || (claims[i].batchId == batchId && claims[i].epoch == epoch) { return true; }
      }
      return false;
    }

    /** The decision part of FindEligibleMatch. */
    method FindDecision(c: Case) returns (r: Option<nat>)
      ensures r == DecisionIndex(c, c.decisions)
      ensures r.None? <==> !(exists i :: 0 <= i < |c.decisions| && RestsOn(c, c.decisions[i]))
    {
      var i := |c.decisions|;
      assert c.decisions[..i] == c.decisions;
      while i > 0
        invariant i <= |c.decisions|
        invariant DecisionIndex(c, c.decisions[..i]) == DecisionIndex(c, c.decisions)
        invariant forall k :: i <= k < |c.decisions| ==> !RestsOn(c, c.decisions[k])
      {
        i := i - 1;
        assert c.decisions[..i + 1][..i] == c.decisions[..i];
        if RestsOn(c, c.decisions[i]) { return Some(i); }
      }
      return None;
    }

    /** FindEligibleMatch: the decision the batch rests on, and the pool of the claimant's matched row
        that the live configuration leaves. */
    method FindEligibleMatch(c: Case, org: string, offer: Option<nat>) returns (r: Option<(nat, string)>)
      ensures r.Some? ==>
                var (i, poolId) := r.value;
                && DecisionIndex(c, c.decisions) == Some(i) && offer.Some?
                && Offers(c.decisions[i], org, offer.value) && c.decisions[i].rows[offer.value].poolId == Some(poolId)
      ensures r.None? <==>
                DecisionIndex(c, c.decisions).None? || offer.None? ||
                !Offers(c.decisions[DecisionIndex(c, c.decisions).value], org, offer.value)
    {
      var i := FindDecision(c);
      if i.None? || offer.None? { return None; }
      var d := c.decisions[i.value];
      if offer.value >= |d.rows| { return None; }
      var row := d.rows[offer.value];
      if row.org != org || !row.isMatched || row.poolId.None? { return None; }
      return Some((i.value, row.poolId.value));
    }

    method FindReservation(claimId: string, batchId: string) returns (found: bool)
      ensures found <==> exists k :: 0 <= k < |reservations| &&
                           reservations[k].claimId == claimId && reservations[k].batchId == batchId
    {
      for k := 0 to |reservations|
        invariant forall n :: 0 <= n < k ==> !(reservations[n].claimId == claimId && reservations[n].batchId == batchId)
      {
        if reservations[k].claimId == claimId && reservations[k].batchId == batchId { return true; }
      }
      return false;
    }

    /** FindAcceptedClaimReservation: the claim the batch points at, if its reservation exists too. */
    method FindAcceptedClaim(batchId: string, c: Case) returns (r: Option<nat>)
      ensures r == AcceptedClaimIn(State(), batchId, c, |claims|)
    {
      var i: nat := |claims|;
      while i > 0
        invariant i <= |claims|
        invariant AcceptedClaimIn(State(), batchId, c, i) == AcceptedClaimIn(State(), batchId, c, |claims|)
      {
        i := i - 1;
        if Some(claims[i].id) == c.claim && claims[i].batchId == batchId && claims[i].epoch == c.epoch {
          var found := FindReservation(claims[i].id, batchId);
          if found { return Some(i); }
        }
      }
      return None;
    }

    /** FindAssignmentForUpdate: the assignment row and the batch it belongs to. */
    method FindAssignment(assignmentId: string) returns (r: Option<(string, nat)>)
      ensures r == Located(State(), assignmentId)
    {
      if assignmentId !in assignmentBatch || assignmentBatch[assignmentId] !in cases { return None; }
      var batchId := assignmentBatch[assignmentId];
      var s := cases[batchId].assignments;
      var i := |s|;
      assert s[..i] == s;
      while i > 0
        invariant i <= |s|
        invariant IndexOfAssignment(s[..i], assignmentId) == IndexOfAssignment(s, assignmentId)
      {
        i := i - 1;
        assert s[..i + 1][..i] == s[..i];
        if s[i].id == assignmentId { return Some((batchId, i)); }
      }
      return None;
    }

    method ClaimScope(batchId: string, c: Case, org: string) returns (found: bool)
      ensures found == ClaimInScope(State(), batchId, c, org)
    {
      for i := 0 to |claims|
        invariant forall k :: 0 <= k < i ==>
          !(Some(claims[k].id) == c.claim && claims[k].batchId == batchId && claims[k].epoch == c.epoch && claims[k].recycler.org == org)
      {
        if Some(claims[i].id) == c.claim && claims[i].batchId == batchId && claims[i].epoch == c.epoch &&
          claims[i].recycler.org == org
        {
          return true;
        }
      }
      return false;
    }

    // ---------------------------------------------------------------- guarded updates

    // UPDATE of the batch row with version + 1, and its audit row.
    method UpdateBatch(id: string, c: Case, kind: AuditKind, to: BatchStatus) returns (error: Option<Error>)
      modifies this`cases
      ensures match Raised(c, kind, to)
              case Err(e) => error == Some(e) && cases == old(cases)
              case Ok(next) => error == None && cases == old(cases)[id := next]
    {
      if c.version >= MAX_UINT32 { return Some(Unavailable); }
      var entry := Audit(kind, c.status, to, c.version + 1);
      cases := cases[id := c.(status := to, version := c.version + 1, audit := c.audit + [entry])];
      return None;
    }

    // ReserveCapacity: one conditional update, which fails when the pool has too little left.
    method ReserveCapacity(poolId: string, org: string, kg: int) returns (ok: bool)
      modifies this`pools
      ensures ok == PoolTakes(old(State()), poolId, org, kg)
      ensures pools == if ok then Reserve(old(State()), poolId, kg) else old(pools)
    {
      if poolId !in pools || pools[poolId].owner != org || !pools[poolId].isActive { return false; }
      var pool := pools[poolId];
      if pool.total - pool.reserved < kg { return false; }
      pools := pools[poolId := pool.(reserved := pool.reserved + kg)];
      return true;
    }

    // ---------------------------------------------------------------- batch.go

    method CreateDraft(m: Meta, columns: Columns, draw: Draw) returns (r: Result<Reply, Error>)
      modifies this`cases
      ensures forall o ::
                match Execute(checks, old(State()), m, Request.CreateDraft(columns), o, draw)
                case Err(e) => r == Err(e) && State() == old(State())
                case Ok(effect) => effect == Recorded(State(), effect.reply) && r == Ok(effect.reply)
    {
      if draw.batchId in cases { return Err(Unavailable); }
      var c := Case(ActorOf(m), columns, None, Draft, 1, 1, None, None, [], [], [], None, None, [], []);
      cases := cases[draw.batchId := c.(audit := [Audit(DraftSaved, Draft, Draft, 1)])];
      return Ok(BatchReply(draw.batchId, Draft, 1, ""));
    }

    /** draftChanges: only the supplied columns are written. */
    static method ApplyDraft(held: Columns, given: Columns) returns (r: Columns)
      ensures r == Merged(held, given)
    {
      r := held;
      if given.category.Some? { r := r.(category := given.category); }
      if given.quantity.Some? { r := r.(quantity := given.quantity); }
      if given.weightKg.Some? { r := r.(weightKg := given.weightKg); }
      if given.condition.Some? { r := r.(condition := given.condition); }
      if given.isDataBearing.Some? { r := r.(isDataBearing := given.isDataBearing); }
      if given.zone.Some? { r := r.(zone := given.zone); }
      if given.deadline.Some? { r := r.(deadline := given.deadline); }
    }

    /** EditDraft and Submit: the version guard decides between two concurrent writers. */
    method WriteDraft(m: Meta, r: Request, o: Oracle, draw: Draw) returns (answer: Result<Reply, Error>)
      requires r.EditDraft? || r.Submit?
      modifies this`cases
      ensures match BatchStep(checks, old(State()), m, r, o, draw)
              case Err(e) => answer == Err(e) && State() == old(State())
              case Ok((after, reply)) => answer == Ok(reply) && State() == after
    {
      if r.batchId !in cases { return Err(NotFound); }
      var c := cases[r.batchId];
      if c.donor != ActorOf(m) { return Err(Forbidden); }
      if c.status != Draft { return Err(InvalidState); }
      if c.version != r.expected { return Err(StaleVersion); }
      var error: Option<Error>;
      if r.EditDraft? {
        var held := ApplyDraft(c.columns, r.columns);
        error := UpdateBatch(r.batchId, c.(columns := held), DraftSaved, Draft);
      } else {
        var stored := Complete(c.columns, c.donor.org, draw.now);
        if stored.None? || !checks.submittable(stored.value) { return Err(ValidationFailed); }
        error := UpdateBatch(r.batchId, c.(details := stored), RequestSubmittedEntry, Submitted);
      }
      if error.Some? { return Err(error.value); }
      return Ok(BatchReply(r.batchId, cases[r.batchId].status, cases[r.batchId].version, if r.Submit? then draw.eventId else ""));
    }

    // ---------------------------------------------------------------- claim.go

    /** Claim: the capacity is reserved before the claim and the batch are written; a duplicate claim or
        a batch that moved on gives it back. */
    method Claim(m: Meta, batchId: string, expected: int, epoch: int, o: Oracle, draw: Draw) returns (r: Result<Reply, Error>)
      modifies this`cases, this`pools, this`claims, this`reservations
      ensures match ClaimStep(checks, old(State()), m, batchId, expected, epoch, o, draw)
              case Err(e) => r == Err(e) && State() == old(State())
              case Ok((after, reply)) => r == Ok(reply) && State() == after
    {
      if batchId !in cases { return Err(NotFound); }
      var c := cases[batchId];
      var used := FindClaimKey(m.key);
      if used { return Err(IdempotencyConflict); }
      if c.version != Narrowed(expected) || c.epoch != epoch { return Err(StaleVersion); }
      if c.status != MatchedBatch || c.claim.Some? { return Err(InvalidState); }
      if c.details.None? { return Err(ValidationFailed); }
      var found := FindEligibleMatch(c, ActorOf(m).org, o.offer);
      if found.None? { return Err(NotFound); }
      var (i, poolId) := found.value;
      var kg := checks.weigh(c.details.value);
      var before := pools;
      var reserved := ReserveCapacity(poolId, ActorOf(m).org, kg);
      if !reserved { return Err(NotFound); }
      var taken := ClaimRowTaken(draw.claimId, batchId, c.epoch);
      if taken {
        pools := before;
        return Err(Unavailable);
      }
      var error := UpdateBatch(batchId, c.(claim := Some(draw.claimId)), ClaimConfirmed, Approved);
      if error.Some? {
        pools := before;
        return Err(error.value);
      }
      claims := claims + [Workflow.Claim(draw.claimId, batchId, c.epoch, ActorOf(m), m.key, c.decisions[i].id)];
      reservations := reservations + [Reservation(draw.reservationId, batchId, draw.claimId, poolId, kg)];
      return Ok(ClaimReply(batchId, cases[batchId].version, draw.claimId, draw.reservationId));
    }

    // ---------------------------------------------------------------- assignment.go

    method Select(m: Meta, batchId: string, expected: int, epoch: int, scopeId: string, o: Oracle, draw: Draw)
      returns (r: Result<Reply, Error>)
      modifies this`cases, this`assignmentBatch
      ensures match SelectStep(old(State()), m, batchId, expected, epoch, scopeId, o, draw)
              case Err(e) => r == Err(e) && State() == old(State())
              case Ok((after, reply)) => r == Ok(reply) && State() == after
    {
      if batchId !in cases { return Err(NotFound); }
      var c, actor := cases[batchId], ActorOf(m);
      if c.version != Narrowed(expected) || c.epoch != epoch { return Err(StaleVersion); }
      if c.status != Approved || c.assignment.Some? { return Err(InvalidState); }
      var i := FindAcceptedClaim(batchId, c);
      if i.None? { return Err(NotFound); }
      if !o.scopeOk { return Err(Forbidden); }
      var sequence: nat, previous: Option<string> := 1, None;
      if c.assignments != [] {
        var latest := c.assignments[|c.assignments| - 1];
        if latest.collector == actor { return Err(Forbidden); }
        sequence, previous := latest.sequence + 1, Some(latest.id);
      }
      if draw.assignmentId in assignmentBatch || AssignmentKnown(c, draw.assignmentId) { return Err(Unavailable); }
      var a := Assignment(draw.assignmentId, c.claim.value, claims[i.value].recycler.org, actor, scopeId, sequence, previous,
                          AcceptedAssignment, 1, draw.now);
      var error := UpdateBatch(batchId, c.(assignments := c.assignments + [a], assignment := Some(a.id)),
                               CollectorAssigned, Assigned);
      if error.Some? { return Err(error.value); }
      assignmentBatch := assignmentBatch[draw.assignmentId := batchId];
      return Ok(AssignmentReply(draw.assignmentId, AcceptedAssignment, 1));
    }

    /** changeAssignment: accept or reject. */
    method ChangeAssignment(m: Meta, r: Request) returns (answer: Result<Reply, Error>)
      requires r.AcceptAssignment? || r.RejectAssignment?
      modifies this`cases
      ensures forall draw ::
                match AssignmentStep(old(State()), m, r, draw)
                case Err(e) => answer == Err(e) && State() == old(State())
                case Ok((after, reply)) => answer == Ok(reply) && State() == after
    {
      var found := FindAssignment(r.assignmentId);
      if found.None? { return Err(NotFound); }
      var (batchId, i) := found.value;
      var c := cases[batchId];
      var a := c.assignments[i];
      if a.collector != ActorOf(m) { return Err(Forbidden); }
      if c.version != Narrowed(r.expected) || c.assignment != Some(a.id) { return Err(StaleVersion); }
      var error: Option<Error>;
      if r.AcceptAssignment? {
        if a.status != PendingAssignment || c.status != Assigned { return Err(InvalidState); }
        a := a.(status := AcceptedAssignment, version := a.version + 1);
        error := UpdateBatch(batchId, c.(assignments := c.assignments[i := a]), AssignmentAccepted, Assigned);
      } else {
        if a.status != PendingAssignment && a.status != AcceptedAssignment { return Err(InvalidState); }
        a := a.(status := SupersededAssignment, version := a.version + 1);
        if c.status != Assigned { return Err(Concurrency); }
        error := UpdateBatch(batchId, c.(assignments := c.assignments[i := a], assignment := None), AssignmentRejected, Approved);
      }
      if error.Some? { return Err(error.value); }
      return Ok(AssignmentReply(a.id, a.status, a.version));
    }

    /** recordPickup: the handoff row is written for a collection and for a failure alike. */
    method RecordPickup(m: Meta, r: Request, draw: Draw) returns (answer: Result<Reply, Error>)
      requires r.RecordHandoff? || r.FailPickup?
      modifies this`cases
      ensures match AssignmentStep(old(State()), m, r, draw)
              case Err(e) => answer == Err(e) && State() == old(State())
              case Ok((after, reply)) => answer == Ok(reply) && State() == after
    {
      var found := FindAssignment(r.assignmentId);
      if found.None? { return Err(NotFound); }
      var (batchId, i) := found.value;
      var c := cases[batchId];
      var a := c.assignments[i];
      if a.collector != ActorOf(m) { return Err(Forbidden); }
      if c.version != Narrowed(r.expected) || c.assignment != Some(a.id) { return Err(StaleVersion); }
      if a.status != AcceptedAssignment || c.status != Assigned { return Err(InvalidState); }
      if r.RecordHandoff? && r.pickupAt < a.assignedAt { return Err(ValidationFailed); }
      var handoff := Handoff(draw.rowId, a.id, r.RecordHandoff?);
      var status, kind, to := CompletedAssignment, CollectionCompleted, Collected;
      if r.FailPickup? { status, kind, to := FailedAssignment, CollectionFailed, FailedCollection; }
      a := a.(status := status, version := a.version + 1);
      var error := UpdateBatch(batchId, c.(handoffs := c.handoffs + [handoff], assignments := c.assignments[i := a]), kind, to);
      if error.Some? { return Err(error.value); }
      return Ok(AssignmentReply(a.id, a.status, a.version));
    }

    /** RecoverFailedCollection: only the pointer and the status change. */
    method Recover(m: Meta, r: Request) returns (answer: Result<Reply, Error>)
      requires r.RecoverCollection?
      modifies this`cases
      ensures forall draw ::
                match AssignmentStep(old(State()), m, r, draw)
                case Err(e) => answer == Err(e) && State() == old(State())
                case Ok((after, reply)) => answer == Ok(reply) && State() == after
    {
      var found := FindAssignment(r.assignmentId);
      if found.None? { return Err(NotFound); }
      var (batchId, i) := found.value;
      var c := cases[batchId];
      var a := c.assignments[i];
      if a.status != FailedAssignment || c.status != FailedCollection || c.assignment != Some(a.id) {
        return Err(InvalidState);
      }
      var error := UpdateBatch(batchId, c.(assignment := None), RecoveryApproved, Approved);
      if error.Some? { return Err(error.value); }
      return Ok(AssignmentReply(a.id, a.status, a.version));
    }

    // ---------------------------------------------------------------- receipt.go, treatment.go, analytics.go

    // ValidateReceiptScope: the current claim and the current assignment belong to the facility.
    method ReceiptScope(batchId: string, c: Case, org: string) returns (ok: bool)
      ensures ok == (c.claim.Some? && c.assignment.Some? && ClaimInScope(State(), batchId, c, org) && AssignmentInScope(c, org))
    {
      if c.claim.None? || c.assignment.None? { return false; }
      var claimed := ClaimScope(batchId, c, org);
      if !claimed { return false; }
      for i := 0 to |c.assignments|
        invariant forall k :: 0 <= k < i ==>
          !(Some(c.assignments[k].id) == c.assignment && Some(c.assignments[k].claimId) == c.claim &&
            c.assignments[k].recyclerOrg == org && c.assignments[k].status in {AcceptedAssignment, CompletedAssignment})
      {
        var a := c.assignments[i];
        if Some(a.id) == c.assignment && Some(a.claimId) == c.claim && a.recyclerOrg == org &&
          (a.status == AcceptedAssignment || a.status == CompletedAssignment)
        {
          return true;
        }
      }
      return false;
    }

    method VerifyReceipt(m: Meta, r: Request, o: Oracle, draw: Draw) returns (answer: Result<Reply, Error>)
      requires r.VerifyReceipt?
      modifies this`cases
      ensures match BatchStep(checks, old(State()), m, r, o, draw)
              case Err(e) => answer == Err(e) && State() == old(State())
              case Ok((after, reply)) => answer == Ok(reply) && State() == after
    {
      if r.batchId !in cases { return Err(NotFound); }
      var c, actor := cases[r.batchId], ActorOf(m);
      if c.status != Collected { return Err(InvalidState); }
      if c.version != r.expected { return Err(StaleVersion); }
      var inScope := ReceiptScope(r.batchId, c, actor.org);
      if !inScope { return Err(Forbidden); }
      if c.receipt.Some? { return Err(Unavailable); }
      var error := UpdateBatch(r.batchId, c.(receipt := Some(ReceiptRow(draw.rowId, actor, r.figures))), ReceiptVerified, Verified);
      if error.Some? { return Err(error.value); }
      return Ok(BatchReply(r.batchId, Verified, cases[r.batchId].version, draw.rowId));
    }

    /** RecordTreatment: normalised against the stored receipt, and frozen into the event. */
    method RecordTreatment(m: Meta, r: Request, o: Oracle, draw: Draw) returns (answer: Result<Reply, Error>)
      requires r.RecordTreatment?
      modifies this`cases
      ensures match BatchStep(checks, old(State()), m, r, o, draw)
              case Err(e) => answer == Err(e) && State() == old(State())
              case Ok((after, reply)) => answer == Ok(reply) && State() == after
    {
      if r.batchId !in cases { return Err(NotFound); }
      var c, actor := cases[r.batchId], ActorOf(m);
      if c.status != Verified { return Err(InvalidState); }
      if c.version != r.expected { return Err(StaleVersion); }
      var inScope := ReceiptScope(r.batchId, c, actor.org);
      if !inScope { return Err(Forbidden); }
      if c.receipt.None? { return Err(InvalidState); }
      var treatment := checks.normalize(r.request, c.receipt.value.figures.weightKg);
      if treatment.Err? { return Err(ValidationFailed); }
      if treatment.value.evidenceId.Some? && !o.evidenceOk { return Err(NotFound); }
      if c.source.Some? { return Err(Unavailable); }
      var event := SourceEvent(c, r.batchId, actor, treatment.value, checks.ruleVersion, draw.rowId, draw.eventId, m.correlationId);
      var error := UpdateBatch(r.batchId, c.(source := Some(event)), TreatmentRecorded, Recycled);
      if error.Some? { return Err(error.value); }
      return Ok(BatchReply(r.batchId, Recycled, cases[r.batchId].version, draw.rowId));
    }

    /** AcknowledgeAnalytics: written is false when a stored result already answers. */
    method AcknowledgeAnalytics(m: Meta, r: Request, draw: Draw) returns (answer: Result<Reply, Error>, written: bool)
      requires r.Acknowledge?
      modifies this`cases
      ensures match AcknowledgeStep(checks, old(State()), m, r.batchId, r.expected, r.ack, draw)
              case Err(e) => answer == Err(e) && State() == old(State())
              case Ok(Echoed(reply)) => answer == Ok(reply) && !written && State() == old(State())
              case Ok(Recorded(after, reply)) => answer == Ok(reply) && written && State() == after
    {
      written := false;
      if r.batchId !in cases { return Err(NotFound), false; }
      var c, ack := cases[r.batchId], r.ack;
      if c.results != [] && c.results[0].ack.sourceEventId == ack.sourceEventId {
        answer := Repeated(r.batchId, c, c.results[0], r.expected, ack, m.correlationId);
        return;
      }
      if c.source.None? || c.source.value.eventId != ack.sourceEventId { return Err(NotFound), false; }
      var e := c.source.value;
      if e.aggregateVersion != ack.sourceVersion || e.data.ruleVersion != ack.result.ruleVersion ||
        Impact.CanonicalInput(e) != ack.input
      {
        return Err(ValidationFailed), false;
      }
      if c.status != Recycled { return Err(InvalidState), false; }
      if c.version != r.expected || c.version != ack.sourceVersion { return Err(StaleVersion), false; }
      if !checks.accepts(e.data, ack.result) { return Err(ValidationFailed), false; }
      if c.results != [] { return Err(Unavailable), false; }
      var done := Completion(draw.rowId, ack, draw.eventId, m.correlationId);
      var error := UpdateBatch(r.batchId, c.(results := c.results + [done]), AnalyticsCompleted, Completed);
      if error.Some? { return Err(error.value), false; }
      answer := Ok(CompletionReply(r.batchId, Completed, cases[r.batchId].version, done.resultId, ack.result, m.correlationId,
                                   done.eventId));
      written := true;
    }

    // ---------------------------------------------------------------- commands

    // The assignment commands, by name.
    method RunAssignment(m: Meta, r: Request, draw: Draw) returns (answer: Result<Reply, Error>)
      requires r.AcceptAssignment? || r.RejectAssignment? || r.RecordHandoff? || r.FailPickup? || r.RecoverCollection?
      modifies this
      ensures match AssignmentStep(old(State()), m, r, draw)
              case Err(e) => answer == Err(e) && State() == old(State())
              case Ok((after, reply)) => answer == Ok(reply) && State() == after
    {
      if r.AcceptAssignment? || r.RejectAssignment? {
        answer := ChangeAssignment(m, r);
      } else if r.RecoverCollection? {
        answer := Recover(m, r);
      } else {
        answer := RecordPickup(m, r, draw);
      }
    }

    // The transaction of one command, by its name.
    method Run(m: Meta, r: Request, o: Oracle, draw: Draw) returns (answer: Result<Reply, Error>, written: bool)
      modifies this
      ensures match Execute(checks, old(State()), m, r, o, draw)
              case Err(e) => answer == Err(e) && State() == old(State())
              case Ok(Echoed(reply)) => answer == Ok(reply) && !written && State() == old(State())
              case Ok(Recorded(after, reply)) => answer == Ok(reply) && written && State() == after
    {
      written := true;
      match r {
        case CreateDraft(columns) => answer := CreateDraft(m, columns, draw);
        case ClaimBatch(batchId, expected, epoch, _) => answer := Claim(m, batchId, expected, epoch, o, draw);
        case SelectCollector(batchId, expected, epoch, scopeId) =>
          answer := Select(m, batchId, expected, epoch, scopeId, o, draw);
        case Acknowledge(_, _, _) => answer, written := AcknowledgeAnalytics(m, r, draw);
        case EditDraft(_, _, _) => answer := WriteDraft(m, r, o, draw);
        case Submit(_, _) => answer := WriteDraft(m, r, o, draw);
        case VerifyReceipt(_, _, _) => answer := VerifyReceipt(m, r, o, draw);
        case RecordTreatment(_, _, _) => answer := RecordTreatment(m, r, o, draw);
        case _ => answer := RunAssignment(m, r, draw);
      }
    }

    // The transaction of the first call of a key: the command row keeps the request and the answer.
    method Transact(m: Meta, r: Request, o: Oracle, draw: Draw) returns (answer: Result<Answer, Error>)
      modifies this
      ensures (State(), answer) == Transacted(checks, old(State()), m, r, o, draw)
    {
      CommandsUntouched(checks, State(), m, r, o, draw);
      var result, written := Run(m, r, o, draw);
      if result.Err? { return Err(result.error); }
      if !written { return Ok(Answer(result.value, true)); }
      commands := commands[KeyOf(m, r) := Command(r, result.value)];
      return Ok(Answer(result.value, false));
    }

    /** resolveReplay: another look at the command row decides what an error meant. */
    method Resolve(m: Meta, r: Request, actorOk: bool, error: Error) returns (answer: Result<Answer, Error>)
      ensures answer == Settled(Err(error), State(), m, r, actorOk)
    {
      if !actorOk { return Err(Forbidden); }
      if KeyOf(m, r) !in commands { return Err(error); }
      if commands[KeyOf(m, r)].request != r { return Err(IdempotencyConflict); }
      return Ok(Answer(commands[KeyOf(m, r)].reply, true));
    }

    // The transaction under a lease: a cancelled one is rolled back, and a renewal error replaces
    // a success.
    method ClaimLeased(m: Meta, r: Request, o: Oracle, draw: Draw) returns (answer: Result<Answer, Error>)
      requires r.ClaimBatch?
      modifies this
      ensures (State(), answer) == LeasedClaim(checks, old(State()), m, r, o, draw)
    {
      if o.race.acquire == LeaseBusy { return Err(Busy); }
      if o.race.acquire == LeaseDown { return Err(Unavailable); }
      var before := (cases, assignmentBatch, pools, claims, reservations, commands);
      answer := Transact(m, r, o, draw);
      if o.race.landing == RolledBack {
        cases, assignmentBatch, pools, claims, reservations, commands :=
          before.0, before.1, before.2, before.3, before.4, before.5;
        answer := Err(Unavailable);
      } else if answer.Ok? && (o.race.landing == LandedUnseen || o.race.renewalFailed) {
        answer := Err(Unavailable);
      }
      if answer.Err? { answer := Resolve(m, r, o.race.actorStill, answer.error); }
    }

    /** One call: validate, replay or conflict on a stored command, and otherwise execute and store. */
    method Invoke(m: Meta, r: Request, o: Oracle, draw: Draw) returns (answer: Result<Answer, Error>)
      modifies this
      ensures (State(), answer) == Call(checks, old(State()), m, r, o, draw)
    {
      if !o.requestOk || !Presentable(checks, r) { return Err(ValidationFailed); }
      if ActorFirst(r) && !o.actorOk { return Err(Forbidden); }
      var key := KeyOf(m, r);
      if key in commands {
        if commands[key].request != r { return Err(IdempotencyConflict); }
        return Ok(Answer(commands[key].reply, true));
      }
      if NeedsActor(r) && !o.actorOk { return Err(Forbidden); }
      if r.ClaimBatch? {
        answer := ClaimLeased(m, r, o, draw);
      } else {
        answer := Transact(m, r, o, draw);
      }
    }
  }
}
