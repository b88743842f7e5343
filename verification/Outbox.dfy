/** The transactional outbox: guarded row updates, the head-of-batch claim, and any number of
    overlapping, crashing or late relays. */
module Outbox {
  import opened Wrappers
  import opened Sorting

  datatype PublishState = Pending | Published | Quarantined

  datatype Row = Row(
    id: string, batch: string, version: nat, createdAt: int,
    state: PublishState, due: Option<int>, attempts: nat, publishedAt: Option<int>, lastError: Option<string>)

  // (aggregate_version, created_at, event_id) < (aggregate_version, created_at, event_id)
  predicate KeyBefore(a: Row, b: Row) {
    a.version < b.version ||
    (a.version == b.version &&
     (a.createdAt < b.createdAt || (a.createdAt == b.createdAt && a.id != b.id && AtMost(a.id, b.id))))
  }

  lemma KeyBeforeStrict(a: Row, b: Row)
    ensures !(KeyBefore(a, b) && KeyBefore(b, a)) && !KeyBefore(a, a)
    ensures a.id != b.id ==> KeyBefore(a, b) || KeyBefore(b, a)
  {
    if AtMost(a.id, b.id) && AtMost(b.id, a.id) { AtMostAntisymmetric(a.id, b.id); }
    AtMostTotal(a.id, b.id);
  }

  lemma KeyBeforeTransitive(a: Row, b: Row, c: Row)
    requires KeyBefore(a, b) && KeyBefore(b, c)
    ensures KeyBefore(a, c)
  {
    if a.version == b.version == c.version && a.createdAt == b.createdAt == c.createdAt {
      AtMostTransitive(a.id, b.id, c.id);
      if a.id == c.id { AtMostAntisymmetric(a.id, b.id); }
    }
  }

  // ---------------------------------------------------------------- the claim query

  predicate Blocked(rows: seq<Row>, batch: string) {
    exists k :: 0 <= k < |rows| && rows[k].batch == batch && rows[k].state == Quarantined
  }

  predicate HasPredecessor(rows: seq<Row>, i: nat)
    requires i < |rows|
  {
    exists k :: 0 <= k < |rows| && rows[k].batch == rows[i].batch && rows[k].state == Pending && KeyBefore(rows[k], rows[i])
  }

  // The row meets every condition of the query; rows locked by others are skipped.
  predicate Eligible(rows: seq<Row>, i: nat, now: int, locked: set<nat>)
    requires i < |rows|
  {
    && rows[i].state == Pending && rows[i].due.Some? && rows[i].due.value <= now && i !in locked
    && !Blocked(rows, rows[i].batch) && !HasPredecessor(rows, i)
  }

  predicate Distinct(s: seq<nat>) { forall i, j :: 0 <= i < j < |s| ==> s[i] != s[j] }

  predicate Indices(rows: seq<Row>, chosen: seq<nat>) { forall k :: 0 <= k < |chosen| ==> chosen[k] < |rows| }

  // What ClaimPending may return: the least eligible rows in key order, up to the limit.
  ghost predicate Claimable(rows: seq<Row>, now: int, limit: nat, locked: set<nat>, chosen: seq<nat>) {
    && |chosen| <= limit && Distinct(chosen) && Indices(rows, chosen)
    && (forall k :: 0 <= k < |chosen| ==> Eligible(rows, chosen[k], now, locked))
    && (forall i, j :: 0 <= i < j < |chosen| ==> KeyBefore(rows[chosen[i]], rows[chosen[j]]))
    && (forall i {:trigger Eligible(rows, i, now, locked)} :: 0 <= i < |rows| && Eligible(rows, i, now, locked) && i !in chosen ==>
          |chosen| == limit && forall k :: 0 <= k < |chosen| ==> KeyBefore(rows[chosen[k]], rows[i]))
  }

  // The order of a batch's events: by version, then by creation, then by identifier.
  predicate Earlier(a: Row, b: Row) {
    if a.version != b.version then a.version < b.version
    else if a.createdAt != b.createdAt then a.createdAt < b.createdAt
    else a.id != b.id && AtMost(a.id, b.id)
  }

  lemma EarlierIsBefore(a: Row, b: Row)
    ensures KeyBefore(a, b) <==> Earlier(a, b)
  {
  }

  // A pending row that is due and not locked, the first pending one of a batch without a quarantined row.
  ghost predicate DueHead(rows: seq<Row>, i: nat, now: int, locked: set<nat>) {
    && i < |rows| && rows[i].state == Pending && i !in locked && rows[i].due.Some? && rows[i].due.value <= now
    && forall k :: 0 <= k < |rows| && rows[k].batch == rows[i].batch ==>
         rows[k].state != Quarantined && (rows[k].state == Pending ==> !Earlier(rows[k], rows[i]))
  }

  lemma DueHeadExactly(rows: seq<Row>, i: nat, now: int, locked: set<nat>)
    requires i < |rows|
    ensures Eligible(rows, i, now, locked) <==> DueHead(rows, i, now, locked)
  {
    forall k | 0 <= k < |rows| ensures KeyBefore(rows[k], rows[i]) <==> Earlier(rows[k], rows[i]) { EarlierIsBefore(rows[k], rows[i]); }
  }

  // The earliest of those rows, in order, each once; all of them unless the limit stops it.
  ghost predicate TakesHeads(rows: seq<Row>, now: int, limit: nat, locked: set<nat>, chosen: seq<nat>) {
    && |chosen| <= limit && (forall k :: 0 <= k < |chosen| ==> DueHead(rows, chosen[k], now, locked))
    && (forall k, l :: 0 <= k < l < |chosen| ==> chosen[k] != chosen[l] && Earlier(rows[chosen[k]], rows[chosen[l]]))
    && forall i: nat {:trigger DueHead(rows, i, now, locked)} :: DueHead(rows, i, now, locked) && i !in chosen ==>
         |chosen| == limit && forall k :: 0 <= k < |chosen| ==> Earlier(rows[chosen[k]], rows[i])
  }

  lemma ClaimMeans(rows: seq<Row>, now: int, limit: nat, locked: set<nat>, chosen: seq<nat>)
    requires Claimable(rows, now, limit, locked, chosen)
    ensures TakesHeads(rows, now, limit, locked, chosen)
  {
    forall k | 0 <= k < |chosen| ensures DueHead(rows, chosen[k], now, locked) { DueHeadExactly(rows, chosen[k], now, locked); }
    forall k, l | 0 <= k < l < |chosen| ensures Earlier(rows[chosen[k]], rows[chosen[l]]) {
      EarlierIsBefore(rows[chosen[k]], rows[chosen[l]]);
    }
    forall i: nat | DueHead(rows, i, now, locked) && i !in chosen
      ensures |chosen| == limit && forall k :: 0 <= k < |chosen| ==> Earlier(rows[chosen[k]], rows[i])
    {
      DueHeadExactly(rows, i, now, locked);
      assert Eligible(rows, i, now, locked);
      forall k | 0 <= k < |chosen| ensures Earlier(rows[chosen[k]], rows[i]) { EarlierIsBefore(rows[chosen[k]], rows[i]); }
    }
  }

  function Leased(row: Row, until: int): Row { row.(attempts := row.attempts + 1, due := Some(until)) }

  // The attempt count and the lease of every claimed row.
  function LeaseAll(rows: seq<Row>, chosen: seq<nat>, until: int): (r: seq<Row>) {
    seq(|rows|, i requires 0 <= i < |rows| => if i in chosen then Leased(rows[i], until) else rows[i])
  }

  // ---------------------------------------------------------------- guarded updates

  datatype MarkError = NotFound | LeaseLost

  // A guarded update: only a PENDING row changes; a row already in the wanted state is fine.
  function Mark(rows: seq<Row>, i: nat, row: Row, wanted: PublishState): (seq<Row>, Option<MarkError>) {
    if i >= |rows| then (rows, Some(NotFound))
    else if rows[i].state == Pending then (rows[i := row], None)
    else (rows, if rows[i].state == wanted then None else Some(LeaseLost))
  }

  function PublishedRow(row: Row, now: int): Row {
    row.(state := Published, publishedAt := Some(now), due := None, lastError := None)
  }

  function QuarantinedRow(row: Row, error: string): Row {
    row.(state := Quarantined, due := None, lastError := Some(error))
  }

  function RetriedRow(row: Row, at: int, error: string): Row { row.(due := Some(at), lastError := Some(error)) }

  // What publishing came to: acknowledged, a transient or permanent error.
  datatype Outcome = Acknowledged | Transient | Permanent

  // The row as the relay marks it after an attempt.
  function Marked(rows: seq<Row>, i: nat, outcome: Outcome, now: int, backoff: int): (seq<Row>, Option<MarkError>) {
    if i >= |rows| then (rows, Some(NotFound))
    else match outcome
      case Acknowledged => Mark(rows, i, PublishedRow(rows[i], now), Published)
      case Permanent => Mark(rows, i, QuarantinedRow(rows[i], "OUTBOX_EVENT_INVALID"), Quarantined)
      case Transient => Mark(rows, i, RetriedRow(rows[i], now + backoff, "KAFKA_PUBLISH_FAILED"), Published)
  }

  // What makes the event the event, which no update touches.
  predicate SameEvent(row: Row, next: Row) {
    next.id == row.id && next.batch == row.batch && next.version == row.version && next.createdAt == row.createdAt
  }

  // A claim counts the attempt and holds the row back until the lease ends.
  predicate LeaseTells(row: Row, next: Row, until: int) {
    && SameEvent(row, next) && next.state == row.state && next.publishedAt == row.publishedAt && next.lastError == row.lastError
    && next.attempts == row.attempts + 1 && next.due == Some(until)
  }

  // What the outcome of an attempt makes of a PENDING row; after a transient error it waits for its
  // next attempt.
  predicate MarkTells(row: Row, next: Row, outcome: Outcome, now: int, backoff: int) {
    && SameEvent(row, next) && next.attempts == row.attempts
    && match outcome
       case Acknowledged =>
         next.state == Published && next.publishedAt == Some(now) && next.due.None? && next.lastError.None?
       case Permanent =>
         && next.state == Quarantined && next.publishedAt == row.publishedAt && next.due.None?
         && next.lastError == Some("OUTBOX_EVENT_INVALID")
       case Transient =>
         && next.state == Pending && next.publishedAt == row.publishedAt && next.due == Some(now + backoff)
         && next.lastError == Some("KAFKA_PUBLISH_FAILED")
  }

  // One PENDING row is marked; any other row stays as it is.
  ghost predicate MarkedTells(rows: seq<Row>, next: seq<Row>, i: nat, outcome: Outcome, now: int, backoff: int) {
    && |next| == |rows| && (forall k :: 0 <= k < |rows| && k != i ==> next[k] == rows[k])
    && (i < |rows| ==>
          if rows[i].state == Pending then MarkTells(rows[i], next[i], outcome, now, backoff) else next[i] == rows[i])
  }

  // A late mark is fine when the row already is where it should be.
  ghost predicate AnswerTells(rows: seq<Row>, i: nat, outcome: Outcome, error: Option<MarkError>) {
    match error
    case Some(NotFound) => i >= |rows|
    case Some(LeaseLost) =>
      i < |rows| && rows[i].state == if outcome == Permanent then Published else Quarantined
    case None =>
      i < |rows| && rows[i].state in {Pending, if outcome == Permanent then Quarantined else Published}
  }

  lemma MarkMeans(rows: seq<Row>, i: nat, outcome: Outcome, now: int, backoff: int)
    ensures MarkedTells(rows, Marked(rows, i, outcome, now, backoff).0, i, outcome, now, backoff)
    ensures AnswerTells(rows, i, outcome, Marked(rows, i, outcome, now, backoff).1)
  {
  }

  // ---------------------------------------------------------------- the repository

  class Repository {
    var rows: seq<Row>

    constructor (rows: seq<Row>)
      ensures this.rows == rows
    {
      this.rows := rows;
    }

    method IsBlocked(batch: string) returns (r: bool)
      ensures r == Blocked(rows, batch)
    {
      r := false;
      for k := 0 to |rows|
        invariant r <==> exists j :: 0 <= j < k && rows[j].batch == batch && rows[j].state == Quarantined
      {
        r := r || (rows[k].batch == batch && rows[k].state == Quarantined);
      }
    }

    method FindsPredecessor(i: nat) returns (r: bool)
      requires i < |rows|
      ensures r == HasPredecessor(rows, i)
    {
      r := false;
      for k := 0 to |rows|
        invariant r <==> exists j :: 0 <= j < k && rows[j].batch == rows[i].batch && rows[j].state == Pending && KeyBefore(rows[j], rows[i])
      {
        r := r || (rows[k].batch == rows[i].batch && rows[k].state == Pending && KeyBefore(rows[k], rows[i]));
      }
    }

    /** The least eligible row after the ones already chosen, if any. */
    method NextEligible(now: int, locked: set<nat>, chosen: seq<nat>) returns (best: Option<nat>)
      requires forall i, j :: 0 <= i < j < |rows| ==> rows[i].id != rows[j].id
      ensures best.Some? ==> best.value < |rows| && best.value !in chosen && Eligible(rows, best.value, now, locked)
      ensures best.Some? ==>
                forall i :: 0 <= i < |rows| && i !in chosen && i != best.value && Eligible(rows, i, now, locked) ==>
                  KeyBefore(rows[best.value], rows[i])
      ensures best.None? ==> forall i :: 0 <= i < |rows| && i !in chosen ==> !Eligible(rows, i, now, locked)
    {
      best := None;
      for i := 0 to |rows|
        invariant best.Some? ==> best.value < i && best.value !in chosen && Eligible(rows, best.value, now, locked)
        invariant best.Some? ==>
                    forall k :: 0 <= k < i && k !in chosen && k != best.value && Eligible(rows, k, now, locked) ==>
                      KeyBefore(rows[best.value], rows[k])
        invariant best.None? ==> forall k :: 0 <= k < i && k !in chosen ==> !Eligible(rows, k, now, locked)
      {
        var blocked := IsBlocked(rows[i].batch);
        var predecessor := FindsPredecessor(i);
        if i in chosen || rows[i].state != Pending || rows[i].due.None? || rows[i].due.value > now || i in locked ||
          blocked || predecessor
        {
          continue;
        }
        assert Eligible(rows, i, now, locked);
        if best.None? {
          best := Some(i);
        } else {
          KeyBeforeStrict(rows[best.value], rows[i]);
          if KeyBefore(rows[i], rows[best.value]) {
            ghost var beaten := best.value;
            forall k | 0 <= k < i && k !in chosen && k != beaten && Eligible(rows, k, now, locked)
              ensures KeyBefore(rows[i], rows[k])
            {
              KeyBeforeTransitive(rows[i], rows[beaten], rows[k]);
            }
            best := Some(i);
          }
        }
      }
    }

    /** The query of ClaimPending. */
    method SelectHeads(now: int, limit: nat, locked: set<nat>) returns (chosen: seq<nat>)
      requires forall i, j :: 0 <= i < j < |rows| ==> rows[i].id != rows[j].id
      ensures Claimable(rows, now, limit, locked, chosen)
    {
      chosen := [];
      while |chosen| < limit
        invariant |chosen| <= limit && Distinct(chosen) && Indices(rows, chosen)
        invariant forall k :: 0 <= k < |chosen| ==> Eligible(rows, chosen[k], now, locked)
        invariant forall i, j :: 0 <= i < j < |chosen| ==> KeyBefore(rows[chosen[i]], rows[chosen[j]])
        invariant forall i, k :: 0 <= i < |rows| && Eligible(rows, i, now, locked) && i !in chosen && 0 <= k < |chosen| ==>
                    KeyBefore(rows[chosen[k]], rows[i])
        decreases limit - |chosen|
      {
        var best := NextEligible(now, locked, chosen);
        if best.None? { break; }
        chosen := chosen + [best.value];
      }
    }

    /** ClaimPending: select the heads, then raise their attempt counts and leases. */
    method ClaimPending(now: int, limit: nat, lease: int, locked: set<nat>) returns (chosen: seq<nat>)
      requires forall i, j :: 0 <= i < j < |rows| ==> rows[i].id != rows[j].id
      modifies this
      ensures Claimable(old(rows), now, limit, locked, chosen) && TakesHeads(old(rows), now, limit, locked, chosen)
      ensures rows == LeaseAll(old(rows), chosen, now + lease)
      ensures forall i :: 0 <= i < |rows| ==>
                if i in chosen then LeaseTells(old(rows)[i], rows[i], now + lease) else rows[i] == old(rows)[i]
    {
      chosen := SelectHeads(now, limit, locked);
      ClaimMeans(rows, now, limit, locked, chosen);
      Lease(chosen, now + lease);
    }

    method Lease(chosen: seq<nat>, until: int)
      modifies this
      ensures rows == LeaseAll(old(rows), chosen, until)
    {
      for i := 0 to |rows|
        invariant |rows| == |old(rows)|
        invariant forall k :: 0 <= k < i ==> rows[k] == if k in chosen then Leased(old(rows)[k], until) else old(rows)[k]
        invariant forall k :: i <= k < |rows| ==> rows[k] == old(rows)[k]
      {
        if i in chosen { rows := rows[i := Leased(rows[i], until)]; }
      }
    }

    /** MarkPublished, MarkQuarantined and MarkRetry as the relay calls them. */
    method Record(i: nat, outcome: Outcome, now: int, backoff: int) returns (error: Option<MarkError>)
      modifies this
      ensures (rows, error) == Marked(old(rows), i, outcome, now, backoff)
      ensures MarkedTells(old(rows), rows, i, outcome, now, backoff) && AnswerTells(old(rows), i, outcome, error)
    {
      if i >= |rows| { return Some(NotFound); }
      if rows[i].state == Pending {
        match outcome {
          case Acknowledged => rows := rows[i := PublishedRow(rows[i], now)];
          case Permanent => rows := rows[i := QuarantinedRow(rows[i], "OUTBOX_EVENT_INVALID")];
          case Transient => rows := rows[i := RetriedRow(rows[i], now + backoff, "KAFKA_PUBLISH_FAILED")];
        }
        return None;
      }
      var wanted := if outcome == Permanent then Quarantined else Published;
      return if rows[i].state == wanted then None else Some(LeaseLost);
    }
  }
}
