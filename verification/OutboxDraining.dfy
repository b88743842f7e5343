/** Rounds of one relay with publishes that succeed, fail for a while, or are refused for good. */
module OutboxDraining {
  import opened Wrappers
  import opened Outbox
  import opened OutboxRelays

  // ---------------------------------------------------------------- one round

  // The claimed rows carry the mark of their own outcome and no other row changes.
  ghost predicate AllMarked(rows: seq<Row>, chosen: seq<nat>, outcomes: seq<Outcome>, now: int, backoff: int, next: seq<Row>)
    requires |outcomes| == |chosen| && Indices(rows, chosen)
  {
    && OthersKept(rows, next, chosen)
    && forall k {:trigger chosen[k]} :: 0 <= k < |chosen| ==> MarkTells(rows[chosen[k]], next[chosen[k]], outcomes[k], now, backoff)
  }

  lemma {:induction false} MarkAllTells(rows: seq<Row>, chosen: seq<nat>, outcomes: seq<Outcome>, now: int, backoff: int)
    requires |outcomes| == |chosen| && Indices(rows, chosen) && Distinct(chosen)
    requires forall k :: 0 <= k < |chosen| ==> rows[chosen[k]].state == Pending
    ensures AllMarked(rows, chosen, outcomes, now, backoff, MarkAll(rows, chosen, outcomes, now, backoff))
  {
    if chosen != [] {
      var n := |chosen| - 1;
      assert chosen == chosen[..n] + [chosen[n]];
      MarkAllTells(rows, chosen[..n], outcomes[..n], now, backoff);
      var before := MarkAll(rows, chosen[..n], outcomes[..n], now, backoff);
      assert before[chosen[n]] == rows[chosen[n]];
      MarkMeans(before, chosen[n], outcomes[n], now, backoff);
      var next := MarkAll(rows, chosen, outcomes, now, backoff);
      forall k | 0 <= k < |chosen| ensures MarkTells(rows[chosen[k]], next[chosen[k]], outcomes[k], now, backoff) {
        if k < n { assert chosen[..n][k] == chosen[k] && outcomes[..n][k] == outcomes[k]; }
      }
    }
  }

  // What one round claimed, how each publish ended, and the wait after a transient error.
  datatype Pick = Pick(chosen: seq<nat>, outcomes: seq<Outcome>, backoff: int)

  // A round by one relay, alone.
  ghost predicate Round(rows: seq<Row>, now: int, limit: nat, lease: int, pick: Pick, next: seq<Row>) {
    && Claimable(rows, now, limit, {}, pick.chosen) && |pick.outcomes| == |pick.chosen|
    && next == MarkAll(LeaseAll(rows, pick.chosen, now + lease), pick.chosen, pick.outcomes, now, pick.backoff)
  }

  // Every publish of the round ended in a transient error.
  predicate Faulty(pick: Pick) { forall k :: 0 <= k < |pick.outcomes| ==> pick.outcomes[k] == Transient }

  predicate Refuses(pick: Pick) { Permanent in pick.outcomes }

  // What a round makes of an event it claimed.
  ghost predicate ClaimTells(rows: seq<Row>, i: nat, outcome: Outcome, due: int, next: seq<Row>) {
    && i < |rows| == |next| && rows[i].state == Pending && SameEvent(rows[i], next[i]) && !Blocked(rows, rows[i].batch)
    && match outcome
       case Acknowledged => next[i].state == Published
       case Permanent => next[i].state == Quarantined
       case Transient => next[i].state == Pending && next[i].due == Some(due)
  }

  ghost predicate ClaimsTell(rows: seq<Row>, pick: Pick, due: int, next: seq<Row>)
    requires |pick.outcomes| == |pick.chosen|
  {
    forall k :: 0 <= k < |pick.chosen| ==> ClaimTells(rows, pick.chosen[k], pick.outcomes[k], due, next)
  }

  ghost predicate RoundTells(rows: seq<Row>, now: int, pick: Pick, next: seq<Row>) {
    && |pick.outcomes| == |pick.chosen| && OthersKept(rows, next, pick.chosen)
    && ClaimsTell(rows, pick, now + pick.backoff, next)
  }

  lemma ClaimMeans(rows: seq<Row>, leased: seq<Row>, i: nat, outcome: Outcome, now: int, until: int, backoff: int, next: seq<Row>)
    requires i < |rows| == |leased| == |next| && Eligible(rows, i, now, {}) && leased[i] == Leased(rows[i], until)
    requires MarkTells(leased[i], next[i], outcome, now, backoff)
    ensures ClaimTells(rows, i, outcome, now + backoff, next)
  {
  }

  ghost predicate LeasedAll(rows: seq<Row>, chosen: seq<nat>, until: int, leased: seq<Row>)
    requires Indices(rows, chosen)
  {
    && |leased| == |rows| && (forall i :: 0 <= i < |rows| && i !in chosen ==> leased[i] == rows[i])
    && forall k {:trigger chosen[k]} :: 0 <= k < |chosen| ==> leased[chosen[k]] == Leased(rows[chosen[k]], until)
  }

  // The rows as claimed: heads of their batches, leased and not yet marked.
  ghost predicate Taken(rows: seq<Row>, chosen: seq<nat>, now: int, until: int, leased: seq<Row>) {
    && Indices(rows, chosen) && Distinct(chosen) && LeasedAll(rows, chosen, until, leased) && AllEligible(rows, chosen, now)
  }

  ghost predicate AllEligible(rows: seq<Row>, chosen: seq<nat>, now: int)
    requires Indices(rows, chosen)
  {
    forall k :: 0 <= k < |chosen| ==> Eligible(rows, chosen[k], now, {})
  }

  lemma LeaseMeans(rows: seq<Row>, now: int, limit: nat, chosen: seq<nat>, until: int, leased: seq<Row>)
    requires Claimable(rows, now, limit, {}, chosen) && leased == LeaseAll(rows, chosen, until)
    ensures Taken(rows, chosen, now, until, leased)
  {
  }

  lemma MarksMean(rows: seq<Row>, leased: seq<Row>, now: int, until: int, pick: Pick, next: seq<Row>)
    requires |pick.outcomes| == |pick.chosen| && Indices(rows, pick.chosen) && LeasedAll(rows, pick.chosen, until, leased)
    requires AllEligible(rows, pick.chosen, now)
    requires AllMarked(leased, pick.chosen, pick.outcomes, now, pick.backoff, next)
    ensures RoundTells(rows, now, pick, next)
  {
    forall k | 0 <= k < |pick.chosen| ensures ClaimTells(rows, pick.chosen[k], pick.outcomes[k], now + pick.backoff, next) {
      ClaimMeans(rows, leased, pick.chosen[k], pick.outcomes[k], now, until, pick.backoff, next);
    }
  }

  lemma MarkedRound(rows: seq<Row>, leased: seq<Row>, now: int, until: int, pick: Pick, next: seq<Row>)
    requires |pick.outcomes| == |pick.chosen| && Taken(rows, pick.chosen, now, until, leased)
    requires next == MarkAll(leased, pick.chosen, pick.outcomes, now, pick.backoff)
    ensures RoundTells(rows, now, pick, next)
  {
    forall k | 0 <= k < |pick.chosen| ensures leased[pick.chosen[k]].state == Pending {
      assert Eligible(rows, pick.chosen[k], now, {});
    }
    MarkAllTells(leased, pick.chosen, pick.outcomes, now, pick.backoff);
    MarksMean(rows, leased, now, until, pick, next);
  }

  lemma RoundMeans(rows: seq<Row>, now: int, limit: nat, lease: int, pick: Pick, next: seq<Row>)
    requires Round(rows, now, limit, lease, pick, next)
    ensures RoundTells(rows, now, pick, next)
  {
    LeaseMeans(rows, now, limit, pick.chosen, now + lease, LeaseAll(rows, pick.chosen, now + lease));
    MarkedRound(rows, LeaseAll(rows, pick.chosen, now + lease), now, now + lease, pick, next);
  }

  lemma QuarantineIsRefusal(rows: seq<Row>, now: int, pick: Pick, next: seq<Row>, i: nat)
    requires RoundTells(rows, now, pick, next) && i in pick.chosen && i < |next| && next[i].state == Quarantined
    ensures Refuses(pick)
  {
    var k :| 0 <= k < |pick.chosen| && pick.chosen[k] == i;
    assert ClaimTells(rows, i, pick.outcomes[k], now + pick.backoff, next);
  }

  // A round blocks a batch only by a refusal, and frees none.
  lemma RoundBlocks(rows: seq<Row>, now: int, pick: Pick, next: seq<Row>, batch: string)
    requires RoundTells(rows, now, pick, next)
    ensures Blocked(rows, batch) ==> Blocked(next, batch)
    ensures !Refuses(pick) && Blocked(next, batch) ==> Blocked(rows, batch)
  {
    if Blocked(rows, batch) {
      var k :| 0 <= k < |rows| && rows[k].batch == batch && rows[k].state == Quarantined;
      assert next[k] == rows[k];
    }
    if !Refuses(pick) && Blocked(next, batch) {
      var i :| 0 <= i < |next| && next[i].batch == batch && next[i].state == Quarantined;
      if i in pick.chosen { QuarantineIsRefusal(rows, now, pick, next, i); }
    }
  }

  lemma RoundKeepsOrder(rows: seq<Row>, now: int, pick: Pick, next: seq<Row>)
    requires Ordered(rows) && RoundTells(rows, now, pick, next)
    ensures Ordered(next)
  {
    forall i | 0 <= i < |rows| ensures SameEvent(rows[i], next[i]) {
      if i in pick.chosen { var k :| 0 <= k < |pick.chosen| && pick.chosen[k] == i; }
    }
  }

  ghost predicate AllDue(rows: seq<Row>, now: int) {
    forall k :: 0 <= k < |rows| && rows[k].state == Pending ==> rows[k].due.Some? && rows[k].due.value <= now
  }

  // Events that failed are due again once their backoff is over.
  lemma RoundKeepsDue(rows: seq<Row>, now: int, pick: Pick, next: seq<Row>, later: int)
    requires RoundTells(rows, now, pick, next) && AllDue(rows, now) && now <= later && now + pick.backoff <= later
    ensures AllDue(next, later)
  {
    forall i | 0 <= i < |next| && next[i].state == Pending ensures next[i].due.Some? && next[i].due.value <= later {
      if i in pick.chosen { var k :| 0 <= k < |pick.chosen| && pick.chosen[k] == i; }
    }
  }

  // The pending events of batches that nothing blocks.
  ghost function Waiting(rows: seq<Row>): set<nat> {
    set i | 0 <= i < |rows| && rows[i].state == Pending && !Blocked(rows, rows[i].batch)
  }

  // The first waiting event of a batch is eligible as soon as it is due.
  lemma {:induction false} HeadEligible(rows: seq<Row>, i: nat, now: int) returns (h: nat)
    requires Ordered(rows) && i in Waiting(rows) && AllDue(rows, now)
    ensures h < |rows| && Eligible(rows, h, now, {})
    decreases i
  {
    if HasPredecessor(rows, i) {
      var k :| 0 <= k < |rows| && rows[k].batch == rows[i].batch && rows[k].state == Pending && KeyBefore(rows[k], rows[i]);
      KeysAreInsertionOrder(rows, k, i);
      h := HeadEligible(rows, k, now);
    } else {
      h := i;
    }
  }

  // Someone is claimed whenever someone waits.
  lemma RoundClaims(rows: seq<Row>, now: int, limit: nat, lease: int, pick: Pick, next: seq<Row>)
    requires Ordered(rows) && AllDue(rows, now) && limit >= 1 && Round(rows, now, limit, lease, pick, next)
    requires Waiting(rows) != {}
    ensures pick.chosen != []
  {
    var i :| i in Waiting(rows);
    var h := HeadEligible(rows, i, now);
  }

  lemma RoundOnlyDrains(rows: seq<Row>, now: int, pick: Pick, next: seq<Row>)
    requires RoundTells(rows, now, pick, next)
    ensures Waiting(next) <= Waiting(rows)
  {
    forall i | i in Waiting(next) ensures i in Waiting(rows) {
      RoundBlocks(rows, now, pick, next, rows[i].batch);
      if i in pick.chosen { var k :| 0 <= k < |pick.chosen| && pick.chosen[k] == i; }
    }
  }

  lemma Smaller(a: set<nat>, b: set<nat>)
    requires a < b
    ensures |a| < |b|
  {
    assert |b - a| > 0;
    assert |b| == |a| + |b - a| by { assert b == a + (b - a); }
  }

  lemma SmallerOrSame(a: set<nat>, b: set<nat>)
    requires a <= b
    ensures |a| <= |b|
  {
    if a != b { Smaller(a, b); }
  }

  ghost function Left(rows: seq<Row>): nat { |Waiting(rows)| }

  // A round that is not all transient errors ends the wait of some event.
  lemma RoundDrains(rows: seq<Row>, now: int, limit: nat, lease: int, pick: Pick, next: seq<Row>)
    requires Ordered(rows) && AllDue(rows, now) && limit >= 1 && Round(rows, now, limit, lease, pick, next)
    ensures Left(next) <= Left(rows)
    ensures !Faulty(pick) || Left(rows) == 0 ==> Left(next) < Left(rows) || Left(next) == 0
  {
    RoundMeans(rows, now, limit, lease, pick, next);
    RoundOnlyDrains(rows, now, pick, next);
    SmallerOrSame(Waiting(next), Waiting(rows));
    if !Faulty(pick) && Waiting(rows) != {} {
      RoundClaims(rows, now, limit, lease, pick, next);
      var k :| 0 <= k < |pick.outcomes| && pick.outcomes[k] != Transient;
      var i := pick.chosen[k];
      assert i in Waiting(rows) && i !in Waiting(next);
      Smaller(Waiting(next), Waiting(rows));
    }
  }

  // ---------------------------------------------------------------- many rounds

  // A relay waits out the backoff before its next round.
  ghost predicate Rounds(rs: seq<seq<Row>>, nows: seq<int>, picks: seq<Pick>, limit: nat, lease: int) {
    && |rs| == |nows| + 1 && |picks| == |nows| && limit >= 1 && Ordered(rs[0]) && (nows != [] ==> AllDue(rs[0], nows[0]))
    && (forall i :: 0 < i < |nows| ==> nows[i - 1] <= nows[i] && nows[i - 1] + picks[i - 1].backoff <= nows[i])
    && forall i {:trigger Position(i)} :: 0 <= i < |nows| ==> Round(rs[i], nows[i], limit, lease, picks[i], rs[i + 1])
  }

  // The rounds among the first k in which nothing but transient errors happened.
  function Faults(picks: seq<Pick>, k: nat): nat
    requires k <= |picks|
  {
    if k == 0 then 0 else Faults(picks, k - 1) + if Faulty(picks[k - 1]) then 1 else 0
  }

  lemma {:induction false} RoundsKeep(rs: seq<seq<Row>>, nows: seq<int>, picks: seq<Pick>, limit: nat, lease: int, k: nat)
    requires Rounds(rs, nows, picks, limit, lease) && k < |rs|
    ensures Ordered(rs[k]) && (k < |nows| ==> AllDue(rs[k], nows[k]))
  {
    if k > 0 {
      RoundsKeep(rs, nows, picks, limit, lease, k - 1);
      assert Position(k - 1);
      RoundMeans(rs[k - 1], nows[k - 1], limit, lease, picks[k - 1], rs[k]);
      RoundKeepsOrder(rs[k - 1], nows[k - 1], picks[k - 1], rs[k]);
      if k < |nows| { RoundKeepsDue(rs[k - 1], nows[k - 1], picks[k - 1], rs[k], nows[k]); }
    }
  }

  lemma {:induction false} RoundsDrain(rs: seq<seq<Row>>, nows: seq<int>, picks: seq<Pick>, limit: nat, lease: int, k: nat)
    requires Rounds(rs, nows, picks, limit, lease) && k < |rs|
    ensures Left(rs[k]) == 0 || Left(rs[k]) + k <= Left(rs[0]) + Faults(picks, k)
  {
    if k > 0 {
      RoundsDrain(rs, nows, picks, limit, lease, k - 1);
      RoundsKeep(rs, nows, picks, limit, lease, k - 1);
      assert Position(k - 1);
      RoundDrains(rs[k - 1], nows[k - 1], limit, lease, picks[k - 1], rs[k]);
    }
  }

  lemma {:induction false} RoundsKeepBlocks(rs: seq<seq<Row>>, nows: seq<int>, picks: seq<Pick>, limit: nat, lease: int,
                                            k: nat, batch: string)
    requires Rounds(rs, nows, picks, limit, lease) && k < |rs| && forall i :: 0 <= i < k ==> !Refuses(picks[i])
    ensures Blocked(rs[k], batch) <==> Blocked(rs[0], batch)
  {
    if k > 0 {
      RoundsKeepBlocks(rs, nows, picks, limit, lease, k - 1, batch);
      assert Position(k - 1);
      RoundMeans(rs[k - 1], nows[k - 1], limit, lease, picks[k - 1], rs[k]);
      RoundBlocks(rs[k - 1], nows[k - 1], picks[k - 1], rs[k], batch);
    }
  }

  /** As many rounds as events were waiting, besides the rounds lost to transient errors alone, publish
      every event of every batch that no quarantined event blocks: an event that failed is claimed again
      and published. Only a refused event blocks a batch that was not blocked before. */
  lemma UnblockedBatchesDrain(rs: seq<seq<Row>>, nows: seq<int>, picks: seq<Pick>, limit: nat, lease: int, k: nat, i: nat)
    requires Rounds(rs, nows, picks, limit, lease) && k < |rs| && i < |rs[k]|
    requires |Waiting(rs[0])| + Faults(picks, k) <= k
    ensures rs[k][i].state == Published || Blocked(rs[k], rs[k][i].batch)
    ensures (forall j :: 0 <= j < k ==> !Refuses(picks[j])) && Blocked(rs[k], rs[k][i].batch) ==> Blocked(rs[0], rs[k][i].batch)
  {
    RoundsDrain(rs, nows, picks, limit, lease, k);
    assert i !in Waiting(rs[k]);
    if forall j :: 0 <= j < k ==> !Refuses(picks[j]) { RoundsKeepBlocks(rs, nows, picks, limit, lease, k, rs[k][i].batch); }
  }
}
