/** Any number of relays over one outbox: they may overlap, crash, or finish late. */
module OutboxRelays {
  import opened Wrappers
  import opened Outbox

  // A relay works through what it claimed; outcome is the attempt on the first event, once made.
  datatype Relay = Relay(claimed: seq<nat>, outcome: Option<Outcome>)

  // log holds, in order, every event the broker received.
  datatype World = World(rows: seq<Row>, relays: map<nat, Relay>, log: seq<nat>)

  datatype Action =
    | Insert(row: Row)
    | Claim(r: nat, now: int, limit: nat, lease: int, locked: set<nat>, chosen: seq<nat>)
    | Attempt(r: nat, received: bool, result: Outcome)
    | Record(r: nat, now: int, backoff: int)
    | RecordFails(r: nat)
    | Crash(r: nat)

  predicate Idle(w: World, r: nat) { r !in w.relays || w.relays[r].claimed == [] }

  // An event of a batch is inserted with the batch's greatest key; an acknowledged attempt reached
  // the broker, a permanent refusal did not, and a transient one may have.
  ghost predicate Allowed(w: World, a: Action) {
    match a
    case Insert(row) =>
      && row.state == Pending && row.due.Some?
      && (forall k :: 0 <= k < |w.rows| ==> w.rows[k].id != row.id)
      && (forall k :: 0 <= k < |w.rows| && w.rows[k].batch == row.batch ==> KeyBefore(w.rows[k], row))
    case Claim(r, now, limit, lease, locked, chosen) => Idle(w, r) && Claimable(w.rows, now, limit, locked, chosen)
    case Attempt(r, received, result) =>
      && !Idle(w, r) && w.relays[r].outcome.None?
      && (result == Acknowledged ==> received) && (result == Permanent ==> !received)
    case Record(r, _, _) => !Idle(w, r) && w.relays[r].outcome.Some?
    case RecordFails(r) => !Idle(w, r) && w.relays[r].outcome.Some?
    case Crash(r) => true
  }

  function Onwards(relay: Relay): Relay
    requires relay.claimed != []
  {
    Relay(relay.claimed[1..], None)
  }

  ghost function Apply(w: World, a: Action): World
    requires Allowed(w, a)
  {
    match a
    case Insert(row) => w.(rows := w.rows + [row])
    case Claim(r, now, _, lease, _, chosen) =>
      w.(rows := LeaseAll(w.rows, chosen, now + lease), relays := w.relays[r := Relay(chosen, None)])
    case Attempt(r, received, result) =>
      w.(relays := w.relays[r := w.relays[r].(outcome := Some(result))],
         log := if received then w.log + [w.relays[r].claimed[0]] else w.log)
    case Record(r, now, backoff) =>
      w.(rows := Marked(w.rows, w.relays[r].claimed[0], w.relays[r].outcome.value, now, backoff).0,
         relays := w.relays[r := Onwards(w.relays[r])])
    case RecordFails(r) => w.(relays := w.relays[r := Onwards(w.relays[r])])
    case Crash(r) => w.(relays := w.relays - {r})
  }

  // ---------------------------------------------------------------- the invariant

  ghost predicate Ordered(rows: seq<Row>) {
    && (forall i, j :: 0 <= i < j < |rows| ==> rows[i].id != rows[j].id)
    && (forall i, j :: 0 <= i < j < |rows| && rows[i].batch == rows[j].batch ==> KeyBefore(rows[i], rows[j]))
  }

  // Every earlier event of the batch has been published.
  ghost predicate Ready(rows: seq<Row>, j: nat) {
    j < |rows| && forall i :: 0 <= i < j && rows[i].batch == rows[j].batch ==> rows[i].state == Published
  }

  ghost predicate FirstsInOrder(rows: seq<Row>, log: seq<nat>) {
    forall t, i :: 0 <= t < |log| && log[t] < |rows| && 0 <= i < log[t] && rows[i].batch == rows[log[t]].batch ==> i in log[..t]
  }

  // Whatever the broker received was ready, in order, and covers what is published.
  ghost predicate LogSound(rows: seq<Row>, log: seq<nat>) {
    && (forall t :: 0 <= t < |log| ==> Ready(rows, log[t]))
    && (forall i :: 0 <= i < |rows| && rows[i].state == Published ==> i in log)
    && FirstsInOrder(rows, log)
  }

  ghost predicate RelaySound(rows: seq<Row>, relay: Relay, log: seq<nat>) {
    && (forall k :: 0 <= k < |relay.claimed| ==> Ready(rows, relay.claimed[k]))
    && (relay.outcome == Some(Acknowledged) ==> relay.claimed != [] && relay.claimed[0] in log)
  }

  ghost predicate Inv(w: World) {
    && Ordered(w.rows) && LogSound(w.rows, w.log)
    && forall r :: r in w.relays ==> RelaySound(w.rows, w.relays[r], w.log)
  }

  // Rows keep their identity, are only added, and leave PENDING at most once.
  ghost predicate RowsEvolve(rows: seq<Row>, next: seq<Row>) {
    && |rows| <= |next|
    && forall i :: 0 <= i < |rows| ==>
         && next[i].id == rows[i].id && next[i].batch == rows[i].batch && next[i].version == rows[i].version
         && next[i].createdAt == rows[i].createdAt
         && (rows[i].state != Pending ==> next[i] == rows[i])
  }

  // The claim query only returns rows whose predecessors are published.
  lemma EligibleReady(rows: seq<Row>, j: nat, now: int, locked: set<nat>)
    requires Ordered(rows) && j < |rows| && Eligible(rows, j, now, locked)
    ensures Ready(rows, j)
  {
    forall i | 0 <= i < j && rows[i].batch == rows[j].batch ensures rows[i].state == Published {
      assert KeyBefore(rows[i], rows[j]);
    }
  }

  lemma StepEvolves(w: World, a: Action)
    requires Inv(w) && Allowed(w, a)
    ensures RowsEvolve(w.rows, Apply(w, a).rows)
  {
  }

  lemma InsertKeeps(w: World, row: Row)
    requires Inv(w) && Allowed(w, Insert(row))
    ensures Inv(Apply(w, Insert(row)))
  {
  }

  lemma ReadyKept(rows: seq<Row>, next: seq<Row>, j: nat)
    requires RowsEvolve(rows, next) && |next| == |rows| && Ready(rows, j)
    ensures Ready(next, j)
  {
  }

  // Rows that keep their identity keep the order and the log, if what is published was received.
  lemma RowsKeep(rows: seq<Row>, next: seq<Row>, log: seq<nat>)
    requires Ordered(rows) && LogSound(rows, log) && RowsEvolve(rows, next) && |next| == |rows|
    requires forall i :: 0 <= i < |next| && next[i].state == Published ==> i in log
    ensures Ordered(next) && LogSound(next, log)
  {
    forall t | 0 <= t < |log| ensures Ready(next, log[t]) { ReadyKept(rows, next, log[t]); }
    assert FirstsInOrder(next, log);
  }

  lemma RelayKept(rows: seq<Row>, next: seq<Row>, relay: Relay, log: seq<nat>)
    requires RowsEvolve(rows, next) && |next| == |rows| && RelaySound(rows, relay, log)
    ensures RelaySound(next, relay, log)
  {
    forall k | 0 <= k < |relay.claimed| ensures Ready(next, relay.claimed[k]) { ReadyKept(rows, next, relay.claimed[k]); }
  }

  lemma LeaseEvolves(rows: seq<Row>, chosen: seq<nat>, until: int) returns (next: seq<Row>)
    requires forall i :: i in chosen ==> i < |rows| && rows[i].state == Pending
    ensures next == LeaseAll(rows, chosen, until) && RowsEvolve(rows, next) && |next| == |rows|
    ensures forall i :: 0 <= i < |rows| ==> next[i].state == rows[i].state
  {
    next := LeaseAll(rows, chosen, until);
  }

  lemma ClaimedReady(rows: seq<Row>, next: seq<Row>, now: int, limit: nat, locked: set<nat>, chosen: seq<nat>, log: seq<nat>)
    requires Ordered(rows) && Claimable(rows, now, limit, locked, chosen) && RowsEvolve(rows, next) && |next| == |rows|
    ensures RelaySound(next, Relay(chosen, None), log)
  {
    forall k | 0 <= k < |chosen| ensures Ready(next, chosen[k]) {
      EligibleReady(rows, chosen[k], now, locked);
      ReadyKept(rows, next, chosen[k]);
    }
  }

  // Rows changed and one relay replaced.
  lemma ReplacedKeeps(w: World, next: seq<Row>, r: nat, relay: Relay)
    requires Inv(w) && RowsEvolve(w.rows, next) && |next| == |w.rows| && Ordered(next) && LogSound(next, w.log)
    requires RelaySound(next, relay, w.log)
    ensures Inv(World(next, w.relays[r := relay], w.log))
  {
    forall q | q in w.relays ensures RelaySound(next, w.relays[q], w.log) { RelayKept(w.rows, next, w.relays[q], w.log); }
  }

  lemma ClaimKeeps(w: World, r: nat, now: int, limit: nat, lease: int, locked: set<nat>, chosen: seq<nat>)
    requires Inv(w) && Allowed(w, Claim(r, now, limit, lease, locked, chosen))
    ensures Inv(Apply(w, Claim(r, now, limit, lease, locked, chosen)))
  {
    var next := LeaseEvolves(w.rows, chosen, now + lease);
    RowsKeep(w.rows, next, w.log);
    ClaimedReady(w.rows, next, now, limit, locked, chosen, w.log);
    assert Apply(w, Claim(r, now, limit, lease, locked, chosen)) == World(next, w.relays[r := Relay(chosen, None)], w.log);
    ReplacedKeeps(w, next, r, Relay(chosen, None));
  }

  lemma AttemptKeeps(w: World, r: nat, received: bool, result: Outcome)
    requires Inv(w) && Allowed(w, Attempt(r, received, result))
    ensures Inv(Apply(w, Attempt(r, received, result)))
  {
    assert RelaySound(w.rows, w.relays[r], w.log) && Ready(w.rows, w.relays[r].claimed[0]);
    var next := Apply(w, Attempt(r, received, result));
    if received {
      forall t, j | 0 <= t < |next.log| && next.log[t] < |w.rows| && 0 <= j < next.log[t] && w.rows[j].batch == w.rows[next.log[t]].batch
        ensures j in next.log[..t]
      {
        if t < |w.log| {
          assert next.log[..t] == w.log[..t];
        } else {
          assert next.log[..t] == w.log;
        }
      }
    }
  }

  lemma RecordKeeps(w: World, r: nat, now: int, backoff: int)
    requires Inv(w) && Allowed(w, Record(r, now, backoff))
    ensures Inv(Apply(w, Record(r, now, backoff)))
  {
    var relay := w.relays[r];
    assert RelaySound(w.rows, relay, w.log) && Ready(w.rows, relay.claimed[0]);
    var next := Marked(w.rows, relay.claimed[0], relay.outcome.value, now, backoff).0;
    StepEvolves(w, Record(r, now, backoff));
    RowsKeep(w.rows, next, w.log);
    RelayKept(w.rows, next, relay, w.log);
    ReplacedKeeps(w, next, r, Onwards(relay));
  }

  lemma StepKeeps(w: World, a: Action)
    requires Inv(w) && Allowed(w, a)
    ensures Inv(Apply(w, a))
  {
    match a
    case Insert(row) => InsertKeeps(w, row);
    case Claim(r, now, limit, lease, locked, chosen) => ClaimKeeps(w, r, now, limit, lease, locked, chosen);
    case Attempt(r, received, result) => AttemptKeeps(w, r, received, result);
    case Record(r, now, backoff) => RecordKeeps(w, r, now, backoff);
    case RecordFails(_) =>
    case Crash(_) =>
  }

  // ---------------------------------------------------------------- executions

  ghost predicate Execution(ws: seq<World>, actions: seq<Action>) {
    && |ws| == |actions| + 1 && ws[0] == World([], map[], [])
    && forall i {:trigger Position(i)} :: 0 <= i < |actions| ==> Allowed(ws[i], actions[i]) && ws[i + 1] == Apply(ws[i], actions[i])
  }

  lemma {:induction false} InvHolds(ws: seq<World>, actions: seq<Action>, k: nat)
    requires Execution(ws, actions) && k < |ws|
    ensures Inv(ws[k])
  {
    if k > 0 {
      InvHolds(ws, actions, k - 1);
      assert Position(k - 1);
      StepKeeps(ws[k - 1], actions[k - 1]);
    }
  }

  // Within a batch, key order is insertion order.
  lemma KeysAreInsertionOrder(rows: seq<Row>, i: nat, j: nat)
    requires Ordered(rows) && i < |rows| && j < |rows| && rows[i].batch == rows[j].batch && KeyBefore(rows[i], rows[j])
    ensures i < j
  {
    KeyBeforeStrict(rows[i], rows[j]);
  }

  /** For each batch the broker receives events for the first time in key order, whatever the relays
      do: before an event's t-th reception every lesser event of its batch has been received. */
  lemma FirstPublicationsFollowKeys(ws: seq<World>, actions: seq<Action>, k: nat, t: nat, i: nat)
    requires Execution(ws, actions) && k < |ws| && t < |ws[k].log| && i < |ws[k].rows|
    requires ws[k].log[t] < |ws[k].rows| && ws[k].rows[i].batch == ws[k].rows[ws[k].log[t]].batch
    requires Earlier(ws[k].rows[i], ws[k].rows[ws[k].log[t]])
    ensures i in ws[k].log[..t]
  {
    InvHolds(ws, actions, k);
    EarlierIsBefore(ws[k].rows[i], ws[k].rows[ws[k].log[t]]);
    KeysAreInsertionOrder(ws[k].rows, i, ws[k].log[t]);
  }

  /** Nothing follows a quarantined event: no later event of its batch has reached the broker, and no
      relay holds one. */
  lemma NothingFollowsQuarantine(ws: seq<World>, actions: seq<Action>, k: nat, i: nat, j: nat)
    requires Execution(ws, actions) && k < |ws| && i < |ws[k].rows| && j < |ws[k].rows|
    requires ws[k].rows[i].state == Quarantined && ws[k].rows[i].batch == ws[k].rows[j].batch
    requires Earlier(ws[k].rows[i], ws[k].rows[j])
    ensures j !in ws[k].log
    ensures forall r :: r in ws[k].relays ==> j !in ws[k].relays[r].claimed
  {
    InvHolds(ws, actions, k);
    EarlierIsBefore(ws[k].rows[i], ws[k].rows[j]);
    KeysAreInsertionOrder(ws[k].rows, i, j);
    assert !Ready(ws[k].rows, j);
    forall r | r in ws[k].relays ensures j !in ws[k].relays[r].claimed {
      assert RelaySound(ws[k].rows, ws[k].relays[r], ws[k].log);
    }
  }

  lemma EvolvesAt(ws: seq<World>, actions: seq<Action>, k: nat)
    requires Execution(ws, actions) && k < |actions|
    ensures RowsEvolve(ws[k].rows, ws[k + 1].rows)
  {
    InvHolds(ws, actions, k);
    assert Position(k);
    StepEvolves(ws[k], actions[k]);
  }

  /** PUBLISHED and QUARANTINED are absorbing: such a row never changes again. */
  lemma {:induction false} FinalStatesAbsorb(ws: seq<World>, actions: seq<Action>, k: nat, m: nat, i: nat)
    requires Execution(ws, actions) && k <= m < |ws| && i < |ws[k].rows| && ws[k].rows[i].state != Pending
    ensures i < |ws[m].rows| && ws[m].rows[i] == ws[k].rows[i]
    decreases m
  {
    if k < m {
      FinalStatesAbsorb(ws, actions, k, m - 1, i);
      EvolvesAt(ws, actions, m - 1);
    }
  }

  // ---------------------------------------------------------------- what relays do to rows

  // Every row but the listed ones is left alone.
  ghost predicate OthersKept(rows: seq<Row>, next: seq<Row>, changed: seq<nat>) {
    |next| == |rows| && forall i :: 0 <= i < |rows| && i !in changed ==> next[i] == rows[i]
  }

  /** Only a claim leases rows and only a recorded attempt marks one: the first event the relay claimed,
      once, while it is PENDING. */
  lemma ActionTells(w: World, a: Action)
    requires Allowed(w, a)
    ensures a.Insert? ==> Apply(w, a).rows == w.rows + [a.row]
    ensures a.Claim? ==>
              && TakesHeads(w.rows, a.now, a.limit, a.locked, a.chosen)
              && OthersKept(w.rows, Apply(w, a).rows, a.chosen)
              && forall i :: i in a.chosen ==> i < |w.rows| && LeaseTells(w.rows[i], Apply(w, a).rows[i], a.now + a.lease)
    ensures a.Record? ==>
              var relay := w.relays[a.r];
              && OthersKept(w.rows, Apply(w, a).rows, relay.claimed[..1])
              && MarkedTells(w.rows, Apply(w, a).rows, relay.claimed[0], relay.outcome.value, a.now, a.backoff)
              && Apply(w, a).relays == w.relays[a.r := Relay(relay.claimed[1..], None)]
    ensures a.Attempt? || a.RecordFails? || a.Crash? ==> Apply(w, a).rows == w.rows
  {
    if a.Claim? { ClaimMeans(w.rows, a.now, a.limit, a.locked, a.chosen); }
    if a.Record? {
      var relay := w.relays[a.r];
      MarkMeans(w.rows, relay.claimed[0], relay.outcome.value, a.now, a.backoff);
    }
  }

  /** A PENDING row always has the instant of its next attempt: no failure, lease or crash leaves it
      where no claim finds it. */
  lemma {:induction false} PendingIsDue(ws: seq<World>, actions: seq<Action>, k: nat, i: nat)
    requires Execution(ws, actions) && k < |ws| && i < |ws[k].rows| && ws[k].rows[i].state == Pending
    ensures ws[k].rows[i].due.Some?
  {
    if k > 0 {
      assert Position(k - 1);
      ActionTells(ws[k - 1], actions[k - 1]);
      if i < |ws[k - 1].rows| && ws[k - 1].rows[i].state == Pending { PendingIsDue(ws, actions, k - 1, i); }
    }
  }

  // ---------------------------------------------------------------- processOnce

  // The rows after the relay has marked each claimed event with the outcome of its attempt.
  function MarkAll(rows: seq<Row>, chosen: seq<nat>, outcomes: seq<Outcome>, now: int, backoff: int): seq<Row>
    requires |outcomes| == |chosen|
  {
    if chosen == [] then rows
    else
      var n := |chosen| - 1;
      Marked(MarkAll(rows, chosen[..n], outcomes[..n], now, backoff), chosen[n], outcomes[n], now, backoff).0
  }

  function Outcomes(publish: nat -> Outcome, chosen: seq<nat>): seq<Outcome> {
    seq(|chosen|, k requires 0 <= k < |chosen| => publish(chosen[k]))
  }

  // The rows after the first n claimed events.
  function MarkedSoFar(rows: seq<Row>, chosen: seq<nat>, publish: nat -> Outcome, now: int, backoff: int, n: nat): seq<Row>
    requires n <= |chosen|
  {
    MarkAll(rows, chosen[..n], Outcomes(publish, chosen[..n]), now, backoff)
  }

  lemma MarkOneMore(rows: seq<Row>, chosen: seq<nat>, publish: nat -> Outcome, now: int, backoff: int, n: nat)
    requires n < |chosen|
    ensures MarkedSoFar(rows, chosen, publish, now, backoff, n + 1) ==
            Marked(MarkedSoFar(rows, chosen, publish, now, backoff, n), chosen[n], publish(chosen[n]), now, backoff).0
  {
    assert chosen[..n + 1][..n] == chosen[..n];
    assert Outcomes(publish, chosen[..n + 1])[..n] == Outcomes(publish, chosen[..n]);
  }

  /** processOnce: claim, then publish and mark each event in turn; stop is where the relay's context
      ends, if it does. */
  method ProcessOnce(repository: Repository, now: int, limit: nat, lease: int, locked: set<nat>, backoff: int,
                     publish: nat -> Outcome, stop: nat)
    returns (chosen: seq<nat>, marked: nat)
    requires forall i, j :: 0 <= i < j < |repository.rows| ==> repository.rows[i].id != repository.rows[j].id
    modifies repository
    ensures Claimable(old(repository.rows), now, limit, locked, chosen)
    ensures marked == if stop < |chosen| then stop else |chosen|
    ensures repository.rows ==
            MarkAll(LeaseAll(old(repository.rows), chosen, now + lease), chosen[..marked],
                    Outcomes(publish, chosen[..marked]), now, backoff)
  {
    chosen := repository.ClaimPending(now, limit, lease, locked);
    ghost var leased := repository.rows;
    marked := 0;
    while marked < |chosen| && marked < stop
      invariant marked <= |chosen| && marked <= stop
      invariant repository.rows == MarkedSoFar(leased, chosen, publish, now, backoff, marked)
    {
      MarkOneMore(leased, chosen, publish, now, backoff, marked);
      var outcome := publish(chosen[marked]);
      var error := repository.Record(chosen[marked], outcome, now, backoff);
      marked := marked + 1;
    }
  }
}
