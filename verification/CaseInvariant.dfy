/** What every transaction keeps about one batch and its rows. */
module CaseInvariant {
  import opened Wrappers
  import opened Vocabulary
  import opened Snapshots
  import opened BatchCase
  import Impact

  const CLAIMED := {Approved, Assigned, Collected, FailedCollection, Verified, Recycled, Completed}
  const IN_HAND := {Assigned, Collected, FailedCollection, Verified, Recycled, Completed}

  predicate Open(a: Assignment) { a.status == PendingAssignment || a.status == AcceptedAssignment }

  // The status the current assignment has while the batch has this status.
  predicate CurrentFits(batch: BatchStatus, a: Assignment) {
    match batch
    case Assigned => Open(a)
    case FailedCollection => a.status == FailedAssignment
    case Collected | Verified | Recycled | Completed => a.status == CompletedAssignment
    case _ => false
  }

  ghost predicate PointersSound(c: Case) {
    && (c.claim.Some? <==> c.status in CLAIMED)
    && (c.assignment.Some? <==> c.status in IN_HAND)
    && (c.assignment.Some? ==>
          && c.assignments != [] && c.assignment == Some(c.assignments[|c.assignments| - 1].id)
          && CurrentFits(c.status, c.assignments[|c.assignments| - 1]))
  }

  // A replacement names the assignment before it and goes to another collector.
  predicate Replaces(b: Assignment, a: Assignment) { b.previous == Some(a.id) && b.collector != a.collector }

  ghost predicate Sequenced(s: seq<Assignment>) {
    && (forall i :: 0 <= i < |s| ==> s[i].sequence == i + 1)
    && (s != [] ==> s[0].previous.None?)
    && (forall i :: 0 < i < |s| ==> Replaces(s[i], s[i - 1]))
    && (forall i, j :: 0 <= i < j < |s| ==> s[i].id != s[j].id)
  }

  ghost predicate AssignmentsSound(c: Case) {
    && Sequenced(c.assignments)
    && (forall i :: 0 <= i < |c.assignments| ==> Some(c.assignments[i].claimId) == c.claim)
    && (forall i :: 0 <= i < |c.assignments| && Open(c.assignments[i]) ==> c.status == Assigned && i == |c.assignments| - 1)
  }

  predicate Closes(h: Handoff, a: Assignment) {
    a.id == h.assignmentId && a.status == if h.collected then CompletedAssignment else FailedAssignment
  }

  ghost predicate Evidenced(s: seq<Assignment>, h: Handoff) { exists i :: 0 <= i < |s| && Closes(h, s[i]) }

  ghost predicate HandedOff(hs: seq<Handoff>, id: string) { exists k :: 0 <= k < |hs| && hs[k].assignmentId == id }

  // A handoff exists exactly for the assignments that were collected or failed.
  ghost predicate HandoffsSound(s: seq<Assignment>, hs: seq<Handoff>) {
    && (forall k {:trigger Evidenced(s, hs[k])} :: 0 <= k < |hs| ==> Evidenced(s, hs[k]))
    && (forall i {:trigger HandedOff(hs, s[i].id)} ::
          0 <= i < |s| && s[i].status in {CompletedAssignment, FailedAssignment} ==> HandedOff(hs, s[i].id))
    && (forall k, l :: 0 <= k < l < |hs| ==> hs[k].assignmentId != hs[l].assignmentId)
  }

  // One audit entry after another: a new version with a chained status, or a NO_MATCH at the old one.
  predicate Follows(a: Audit, b: Audit) {
    && b.from == a.to
    && (b.version == a.version + 1 ||
        (b.version == a.version && b.kind == MatchingCompletedEntry && a.to == b.to == Submitted))
  }

  ghost predicate AuditSound(c: Case) {
    && c.audit != [] && c.audit[0] == Audit(DraftSaved, Draft, Draft, 1)
    && (forall k :: 0 <= k < |c.audit| - 1 ==> Follows(c.audit[k], c.audit[k + 1]))
    && c.audit[|c.audit| - 1].to == c.status && c.audit[|c.audit| - 1].version == c.version
  }

  ghost predicate ProcessingSound(c: Case) {
    && (c.receipt.Some? <==> c.status in {Verified, Recycled, Completed})
    && (c.source.Some? <==> c.status in {Recycled, Completed})
    && (c.source.Some? ==>
          c.source.value.aggregateVersion == if c.status == Completed then c.version - 1 else c.version)
    && |c.results| <= 1 && (c.status == Completed <==> |c.results| == 1)
    && (c.results != [] ==>
          && c.results[0].ack.sourceVersion == c.version - 1
          && c.results[0].ack.sourceEventId == c.source.value.eventId
          && c.results[0].ack.input == Impact.CanonicalInput(c.source.value)
          && c.results[0].ack.result.ruleVersion == c.source.value.data.ruleVersion)
  }

  ghost predicate DecisionsSound(c: Case) {
    && (forall i :: 0 <= i < |c.decisions| ==>
          && c.decisions[i].version <= c.version
          && (c.decisions[i].matched ==> c.decisions[i].version < c.version && c.status !in {Draft, Submitted}))
    && (forall i, j :: 0 <= i < j < |c.decisions| ==> !(c.decisions[i].matched && c.decisions[j].matched))
    && (c.status == MatchedBatch ==> exists i :: 0 <= i < |c.decisions| && RestsOn(c, c.decisions[i]))
    && (c.status in CLAIMED ==> exists i :: 0 <= i < |c.decisions| && c.decisions[i].matched)
  }

  ghost predicate CaseSound(c: Case) {
    && 1 <= c.version <= MAX_UINT32 && c.epoch >= 1
    && (c.details.Some? <==> c.status != Draft)
    && PointersSound(c) && AssignmentsSound(c) && HandoffsSound(c.assignments, c.handoffs)
    && AuditSound(c) && ProcessingSound(c) && DecisionsSound(c)
  }

  // What one transaction does to the version, the audit log and the rows that are never rewritten.
  ghost predicate Advances(c: Case, next: Case) {
    && next.donor == c.donor && next.epoch == c.epoch && |next.audit| == |c.audit| + 1 && c.audit <= next.audit
    && (next.version == c.version + 1 || (next.version == c.version && next.status == c.status == Submitted && next.details == c.details))
    && |c.assignments| <= |next.assignments| && c.handoffs <= next.handoffs && c.decisions <= next.decisions && c.results <= next.results
    && (c.source.Some? ==> next.source == c.source) && (c.receipt.Some? ==> next.receipt == c.receipt)
    && (c.claim.Some? ==> next.claim == c.claim) && (c.details.Some? ==> next.details == c.details)
  }

  // A step that touches neither the claim nor the identities of the assignments.
  ghost predicate KeepsRows(c: Case, next: Case) {
    && next.claim == c.claim && |next.assignments| == |c.assignments|
    && (forall i :: 0 <= i < |c.assignments| ==> next.assignments[i].id == c.assignments[i].id)
    && (c.claim.Some? ==> next.details == c.details)
  }

  lemma RaisedAudits(c: Case, d: Case, kind: AuditKind, to: BatchStatus)
    requires AuditSound(c) && d.status == c.status && d.version == c.version && d.audit == c.audit && Raised(d, kind, to).Ok?
    ensures AuditSound(Raised(d, kind, to).value)
  {
  }

  lemma EditedSound(c: Case, actor: Actor, expected: int, columns: Columns)
    requires CaseSound(c) && Edited(c, actor, expected, columns).Ok?
    ensures CaseSound(Edited(c, actor, expected, columns).value) && Advances(c, Edited(c, actor, expected, columns).value)
    ensures KeepsRows(c, Edited(c, actor, expected, columns).value)
  {
    RaisedAudits(c, c.(columns := Merged(c.columns, columns)), DraftSaved, Draft);
  }

  lemma SubmittedSound(c: Case, actor: Actor, expected: int, valid: Details -> bool, now: int)
    requires CaseSound(c) && SubmittedAt(c, actor, expected, valid, now).Ok?
    ensures CaseSound(SubmittedAt(c, actor, expected, valid, now).value)
    ensures Advances(c, SubmittedAt(c, actor, expected, valid, now).value)
    ensures KeepsRows(c, SubmittedAt(c, actor, expected, valid, now).value)
  {
    RaisedAudits(c, c.(details := Complete(c.columns, c.donor.org, now)), RequestSubmittedEntry, Submitted);
  }

  lemma DecidedSound(c: Case, id: string, matched: bool, rows: seq<MatchedRow>)
    requires CaseSound(c) && Decided(c, id, matched, rows).Ok?
    ensures CaseSound(Decided(c, id, matched, rows).value) && Advances(c, Decided(c, id, matched, rows).value)
    ensures KeepsRows(c, Decided(c, id, matched, rows).value)
  {
    var d := MatchDecision(id, c.version, c.epoch, matched, rows);
    var next := Decided(c, id, matched, rows).value;
    if matched {
      RaisedAudits(c, c.(decisions := c.decisions + [d]), MatchingCompletedEntry, MatchedBatch);
      assert RestsOn(next, next.decisions[|c.decisions|]);
    }
  }

  // ---------------------------------------------------------------- assignments

  lemma SequencedSnoc(s: seq<Assignment>, a: Assignment)
    requires Sequenced(s) && (forall i :: 0 <= i < |s| ==> s[i].id != a.id) && a.sequence == |s| + 1
    requires a.previous == if s == [] then None else Some(s[|s| - 1].id)
    requires s != [] ==> a.collector != s[|s| - 1].collector
    ensures Sequenced(s + [a])
  {
  }

  lemma HandoffsSnoc(s: seq<Assignment>, hs: seq<Handoff>, a: Assignment)
    requires HandoffsSound(s, hs) && Open(a)
    ensures HandoffsSound(s + [a], hs)
  {
    forall k | 0 <= k < |hs| ensures Evidenced(s + [a], hs[k]) {
      assert Evidenced(s, hs[k]);
      var i :| 0 <= i < |s| && Closes(hs[k], s[i]);
      assert (s + [a])[i] == s[i];
    }
  }

  lemma SelectedSound(c: Case, actor: Actor, expected: int, epoch: int, scopeId: string, recyclerOrg: string, id: string, now: int)
    requires CaseSound(c) && Selected(c, actor, expected, epoch, scopeId, recyclerOrg, id, now).Ok?
    ensures var next := Selected(c, actor, expected, epoch, scopeId, recyclerOrg, id, now).value;
            CaseSound(next) && Advances(c, next)
  {
    var next := Selected(c, actor, expected, epoch, scopeId, recyclerOrg, id, now).value;
    var a := next.assignments[|c.assignments|];
    SequencedSnoc(c.assignments, a);
    HandoffsSnoc(c.assignments, c.handoffs, a);
    RaisedAudits(c, c.(assignments := c.assignments + [a], assignment := Some(id)), CollectorAssigned, Assigned);
  }

  // The assignment a collector command touches is the last one, and open.
  lemma CurrentIsLast(c: Case, i: nat)
    requires CaseSound(c) && i < |c.assignments| && c.assignment == Some(c.assignments[i].id)
    ensures i == |c.assignments| - 1
  {
  }

  lemma SequencedRestated(s: seq<Assignment>, i: nat, status: AssignmentStatus)
    requires Sequenced(s) && i < |s|
    ensures Sequenced(s[i := Restated(s[i], status)])
  {
    var t := s[i := Restated(s[i], status)];
    forall j | 0 < j < |t| ensures Replaces(t[j], t[j - 1]) { assert Replaces(s[j], s[j - 1]); }
  }

  // Restating an open assignment as one that needs no handoff.
  lemma HandoffsRestated(s: seq<Assignment>, hs: seq<Handoff>, i: nat, status: AssignmentStatus)
    requires HandoffsSound(s, hs) && i < |s| && Open(s[i]) && status !in {CompletedAssignment, FailedAssignment}
    ensures HandoffsSound(s[i := Restated(s[i], status)], hs)
  {
    var t := s[i := Restated(s[i], status)];
    forall k | 0 <= k < |hs| ensures Evidenced(t, hs[k]) {
      assert Evidenced(s, hs[k]);
      var j :| 0 <= j < |s| && Closes(hs[k], s[j]);
      assert t[j] == s[j];
    }
    forall j | 0 <= j < |t| && t[j].status in {CompletedAssignment, FailedAssignment} ensures HandedOff(hs, t[j].id) {
      assert t[j] == s[j] && HandedOff(hs, s[j].id);
    }
  }

  // Closing an open assignment together with its handoff.
  lemma HandoffsClosed(s: seq<Assignment>, hs: seq<Handoff>, i: nat, h: Handoff)
    requires Sequenced(s) && HandoffsSound(s, hs) && i < |s| && Open(s[i]) && h.assignmentId == s[i].id
    ensures HandoffsSound(s[i := Restated(s[i], if h.collected then CompletedAssignment else FailedAssignment)], hs + [h])
  {
    var t := s[i := Restated(s[i], if h.collected then CompletedAssignment else FailedAssignment)];
    assert Closes(h, t[i]);
    forall k | 0 <= k < |hs| ensures Evidenced(t, hs[k]) && hs[k].assignmentId != h.assignmentId {
      assert Evidenced(s, hs[k]);
      var j :| 0 <= j < |s| && Closes(hs[k], s[j]);
      assert t[j] == s[j];
    }
    forall j | 0 <= j < |t| && t[j].status in {CompletedAssignment, FailedAssignment} ensures HandedOff(hs + [h], t[j].id) {
      if j == i {
        assert (hs + [h])[|hs|].assignmentId == t[j].id;
      } else {
        assert t[j] == s[j];
        assert HandedOff(hs, s[j].id);
        var k :| 0 <= k < |hs| && hs[k].assignmentId == s[j].id;
        assert (hs + [h])[k].assignmentId == t[j].id;
      }
    }
  }

  lemma AcceptedSound(c: Case, i: nat, actor: Actor, expected: int)
    requires CaseSound(c) && i < |c.assignments| && AcceptedBy(c, i, actor, expected).Ok?
    ensures CaseSound(AcceptedBy(c, i, actor, expected).value) && Advances(c, AcceptedBy(c, i, actor, expected).value)
    ensures KeepsRows(c, AcceptedBy(c, i, actor, expected).value)
  {
    CurrentIsLast(c, i);
    SequencedRestated(c.assignments, i, AcceptedAssignment);
    HandoffsRestated(c.assignments, c.handoffs, i, AcceptedAssignment);
    RaisedAudits(c, c.(assignments := c.assignments[i := Restated(c.assignments[i], AcceptedAssignment)]), AssignmentAccepted, Assigned);
  }

  lemma RejectedSound(c: Case, i: nat, actor: Actor, expected: int)
    requires CaseSound(c) && i < |c.assignments| && RejectedBy(c, i, actor, expected).Ok?
    ensures CaseSound(RejectedBy(c, i, actor, expected).value) && Advances(c, RejectedBy(c, i, actor, expected).value)
    ensures KeepsRows(c, RejectedBy(c, i, actor, expected).value)
  {
    CurrentIsLast(c, i);
    SequencedRestated(c.assignments, i, SupersededAssignment);
    HandoffsRestated(c.assignments, c.handoffs, i, SupersededAssignment);
    RaisedAudits(c, c.(assignments := c.assignments[i := Restated(c.assignments[i], SupersededAssignment)], assignment := None),
                 AssignmentRejected, Approved);
  }

  lemma PickedUpSound(c: Case, i: nat, actor: Actor, expected: int, pickupAt: Option<int>, handoffId: string)
    requires CaseSound(c) && i < |c.assignments| && PickedUp(c, i, actor, expected, pickupAt, handoffId).Ok?
    ensures var next := PickedUp(c, i, actor, expected, pickupAt, handoffId).value; CaseSound(next) && Advances(c, next) && KeepsRows(c, next)
  {
    CurrentIsLast(c, i);
    var h := Handoff(handoffId, c.assignments[i].id, pickupAt.Some?);
    var status := if pickupAt.Some? then CompletedAssignment else FailedAssignment;
    SequencedRestated(c.assignments, i, status);
    HandoffsClosed(c.assignments, c.handoffs, i, h);
    var done := c.(handoffs := c.handoffs + [h], assignments := c.assignments[i := Restated(c.assignments[i], status)]);
    if pickupAt.Some? {
      RaisedAudits(c, done, CollectionCompleted, Collected);
    } else {
      RaisedAudits(c, done, CollectionFailed, FailedCollection);
    }
  }

  lemma RecoveredSound(c: Case, i: nat)
    requires CaseSound(c) && i < |c.assignments| && Recovered(c, i).Ok?
    ensures CaseSound(Recovered(c, i).value) && Advances(c, Recovered(c, i).value)
    ensures KeepsRows(c, Recovered(c, i).value)
  {
    RaisedAudits(c, c.(assignment := None), RecoveryApproved, Approved);
  }

  // ---------------------------------------------------------------- processing

  lemma ReceiptSound(c: Case, actor: Actor, expected: int, inScope: bool, figures: Impact.Receipt, id: string)
    requires CaseSound(c) && ReceiptTaken(c, actor, expected, inScope, figures, id).Ok?
    ensures var next := ReceiptTaken(c, actor, expected, inScope, figures, id).value; CaseSound(next) && Advances(c, next) && KeepsRows(c, next)
  {
    RaisedAudits(c, c.(receipt := Some(ReceiptRow(id, actor, figures))), ReceiptVerified, Verified);
  }

  lemma TreatedSound(c: Case, batchId: string, actor: Actor, expected: int, inScope: bool, evidenceOk: bool,
                     treatment: Result<Impact.Treatment, Impact.TreatmentError>, ruleVersion: string,
                     treatmentId: string, eventId: string, correlationId: string)
    requires CaseSound(c)
    requires Treated(c, batchId, actor, expected, inScope, evidenceOk, treatment, ruleVersion, treatmentId, eventId, correlationId).Ok?
    ensures var next := Treated(c, batchId, actor, expected, inScope, evidenceOk, treatment, ruleVersion, treatmentId, eventId, correlationId).value;
            CaseSound(next) && Advances(c, next) && KeepsRows(c, next)
  {
    var source := SourceEvent(c, batchId, actor, treatment.value, ruleVersion, treatmentId, eventId, correlationId);
    RaisedAudits(c, c.(source := Some(source)), TreatmentRecorded, Recycled);
  }

  lemma CompletedSound(c: Case, expected: int, ack: Acknowledgement,
                       accepts: (Impact.EventData, Impact.ImpactResult) -> bool, resultId: string, eventId: string,
                       correlationId: string)
    requires CaseSound(c) && CompletedBy(c, expected, ack, accepts, resultId, eventId, correlationId).Ok?
    ensures var next := CompletedBy(c, expected, ack, accepts, resultId, eventId, correlationId).value;
            CaseSound(next) && Advances(c, next) && KeepsRows(c, next)
  {
    var result := Completion(resultId, ack, eventId, correlationId);
    RaisedAudits(c, c.(results := c.results + [result]), AnalyticsCompleted, Completed);
  }

  // ---------------------------------------------------------------- what the audit log determines

  /** Entries of one version agree on the status: the log determines the status at every version. */
  lemma {:induction false} VersionFixesStatus(c: Case, k: nat, l: nat)
    requires AuditSound(c) && k <= l < |c.audit|
    ensures c.audit[k].version <= c.audit[l].version
    ensures c.audit[k].version == c.audit[l].version ==> c.audit[k].to == c.audit[l].to
    decreases l
  {
    if k < l {
      VersionFixesStatus(c, k, l - 1);
      assert Follows(c.audit[l - 1], c.audit[l]);
    }
  }

  // An entry raises its version when it is the first, or its version is one more than the one before.
  predicate Raises(c: Case, k: nat)
    requires k < |c.audit|
  {
    k == 0 || c.audit[k].version == c.audit[k - 1].version + 1
  }

  lemma {:induction false} RaisedBy(c: Case, v: nat, n: nat) returns (k: nat)
    requires AuditSound(c) && n < |c.audit| && 1 <= v <= c.audit[n].version
    ensures k <= n && c.audit[k].version == v && Raises(c, k)
  {
    if n == 0 || (Raises(c, n) && c.audit[n].version == v) {
      k := n;
    } else {
      assert Follows(c.audit[n - 1], c.audit[n]);
      k := RaisedBy(c, v, n - 1);
    }
  }

  /** For each version from one to the current one, exactly one entry raised it. */
  lemma OneEntryRaisesEachVersion(c: Case, v: nat)
    requires CaseSound(c) && 1 <= v <= c.version
    ensures exists k :: 0 <= k < |c.audit| && c.audit[k].version == v && Raises(c, k) &&
              forall l :: 0 <= l < |c.audit| && c.audit[l].version == v && Raises(c, l) ==> l == k
  {
    var k := RaisedBy(c, v, |c.audit| - 1);
    forall l | 0 <= l < |c.audit| && c.audit[l].version == v && Raises(c, l) ensures l == k {
      if l < k { VersionFixesStatus(c, l, k - 1); }
      if k < l { VersionFixesStatus(c, k, l - 1); }
    }
  }
}
