/** What one turn of the Kafka runner does, field by field, and how many turns commit every record. */
module KafkaProgress {
  import opened Wrappers
  import opened KafkaRunner

  // ---------------------------------------------------------------- one turn

  // A due turn: the job is at work, and the broker takes the commit of a delivery that is DONE.
  ghost predicate Serves(w: World, a: Action, p: Partition) {
    && a.Turned? && a.p == p && Wired(w.runner) && !Idle(w.runner, p) && a.t.now >= DueAt(w.runner, p, a.t)
    && (IsDone(w.runner, w.runner.jobs[p].delivery) ==> a.t.commitTaken)
  }

  // The offset after a DONE record is committed, and nothing else is.
  ghost predicate TurnCommitsMean(w: World, next: World, p: Partition, t: Turn)
    requires Wired(w.runner)
  {
    && next.periods.Keys == w.periods.Keys
    && forall q :: q in w.periods ==>
         next.periods[q].committed == w.periods[q].committed +
           if q == p && Serves(w, Turned(p, t), p) && IsDone(w.runner, w.runner.jobs[p].delivery)
           then [w.runner.cells[w.runner.jobs[p].delivery].offset + 1] else []
  }

  /** What a turn does to the runner and to the offsets committed, in every branch. */
  lemma TurnTells(w: World, p: Partition, t: Turn)
    requires Allowed(w, Turned(p, t))
    ensures TurnMeans(w.runner, Apply(w, Turned(p, t)).runner, p, t)
    ensures TurnCommitsMean(w, Apply(w, Turned(p, t)), p, t)
  {
    TurnMeant(w.runner, p, t);
  }

  // ---------------------------------------------------------------- steps of a delivery

  // The steps ever submitted for a delivery.
  function Steps(futures: seq<Future>, c: nat): nat {
    if futures == [] then 0
    else Steps(futures[..|futures| - 1], c) + if futures[|futures| - 1].delivery == c then 1 else 0
  }

  lemma StepsSnoc(futures: seq<Future>, f: Future, c: nat)
    ensures Steps(futures + [f], c) == Steps(futures, c) + if f.delivery == c then 1 else 0
  {
    assert (futures + [f])[..|futures|] == futures;
  }

  lemma {:induction false} StepsCount(futures: seq<Future>, others: seq<Future>, c: nat)
    requires |futures| == |others| && forall f :: 0 <= f < |futures| ==> futures[f].delivery == others[f].delivery
    ensures Steps(futures, c) == Steps(others, c)
  {
    if futures != [] { StepsCount(futures[..|futures| - 1], others[..|others| - 1], c); }
  }

  lemma {:induction false} NoSteps(futures: seq<Future>, c: nat)
    requires forall f :: 0 <= f < |futures| ==> futures[f].delivery != c
    ensures Steps(futures, c) == 0
  {
    if futures != [] { NoSteps(futures[..|futures| - 1], c); }
  }

  // A delivery is DONE once that many steps of it have returned.
  ghost predicate DoneWithin(r: Runner, limit: nat) {
    forall c {:trigger IsDone(r, c)} ::
      0 <= c < |r.cells| && Steps(r.futures, c) >= limit && Running(c) !in r.futures ==> IsDone(r, c)
  }

  // Steps submitted for the job of a partition.
  ghost function JobSteps(r: Runner, p: Partition): nat { if p in r.jobs then Steps(r.futures, r.jobs[p].delivery) else 0 }

  // What the period has behind it: every committed record counts for all the steps it may take and its commit.
  ghost function Work(w: World, p: Partition, limit: nat): nat
    requires p in w.periods
  {
    (limit + 1) * |w.periods[p].committed| + JobSteps(w.runner, p)
  }

  // ---------------------------------------------------------------- one action

  lemma CommittingTurn(r: Runner, next: Runner, p: Partition, period: Period, after: Period, limit: nat)
    requires Wired(r) && Wired(next) && p in r.jobs && GoesOn(r, next, p) && JobSteps(r, p) <= limit
    requires |after.committed| == |period.committed| + 1
    ensures JobSteps(next, p) == 0
    ensures (limit + 1) * |after.committed| + JobSteps(next, p) > (limit + 1) * |period.committed| + JobSteps(r, p)
  {
    if p in next.jobs { NoSteps(r.futures, |r.cells|); }
    assert (limit + 1) * (|period.committed| + 1) == (limit + 1) * |period.committed| + limit + 1;
  }

  lemma SubmittingTurn(r: Runner, next: Runner, p: Partition, limit: nat)
    requires Wired(r) && p in r.jobs && StepsSound(r) && Submits(r, next, p) && JobSteps(r, p) <= limit
    requires r.jobs[p].future.Some? ==> r.futures[r.jobs[p].future.value].Returned?
    requires DoneWithin(r, limit) && !IsDone(r, r.jobs[p].delivery)
    ensures JobSteps(next, p) == JobSteps(r, p) + 1 <= limit
  {
    var c := r.jobs[p].delivery;
    StepsSnoc(r.futures, Running(c), c);
    assert Running(c) !in r.futures;
  }

  lemma ServingTurn(w: World, p: Partition, t: Turn, limit: nat)
    requires Inv(w) && p in w.periods && Serves(w, Turned(p, t), p) && DoneWithin(w.runner, limit)
    requires JobSteps(w.runner, p) <= limit
    ensures var next := Apply(w, Turned(p, t));
            && p in next.periods && JobSteps(next.runner, p) <= limit && Work(next, p, limit) > Work(w, p, limit)
  {
    TurnTells(w, p, t);
    ServedTurn(w, Apply(w, Turned(p, t)), p, t, limit);
  }

  lemma ServedTurn(w: World, next: World, p: Partition, t: Turn, limit: nat)
    requires Wired(w.runner) && Wired(next.runner) && StepsSound(w.runner)
    requires p in w.periods && Serves(w, Turned(p, t), p) && DoneWithin(w.runner, limit)
    requires JobSteps(w.runner, p) <= limit && TurnMeans(w.runner, next.runner, p, t) && TurnCommitsMean(w, next, p, t)
    ensures p in next.periods && JobSteps(next.runner, p) <= limit && Work(next, p, limit) > Work(w, p, limit)
  {
    if IsDone(w.runner, w.runner.jobs[p].delivery) {
      CommittingTurn(w.runner, next.runner, p, w.periods[p], next.periods[p], limit);
    } else {
      SubmittingTurn(w.runner, next.runner, p, limit);
      assert next.periods[p].committed == w.periods[p].committed;
    }
  }

  lemma OtherTurn(w: World, q: Partition, t: Turn, p: Partition, limit: nat)
    requires Inv(w) && p in w.periods && !Serves(w, Turned(q, t), p)
    ensures var next := Apply(w, Turned(q, t));
            && p in next.periods && JobSteps(next.runner, p) == JobSteps(w.runner, p) && Work(next, p, limit) == Work(w, p, limit)
  {
    TurnTells(w, q, t);
    var r, next := w.runner, Apply(w, Turned(q, t));
    assert next.periods[p].committed == w.periods[p].committed;
    if q != p && p in r.jobs {
      assert p in r.jobs - {q};
      assert next.runner.jobs[p] == r.jobs[p];
    }
    if !Idle(r, q) && t.now >= DueAt(r, q, t) && !IsDone(r, r.jobs[q].delivery) && p in r.jobs {
      StepsSnoc(r.futures, Running(r.jobs[q].delivery), r.jobs[p].delivery);
    }
    assert q != p && p !in r.jobs ==> p !in next.runner.jobs by {
      if q != p && p in next.runner.jobs { assert p in next.runner.jobs - {q}; }
    }
  }

  lemma OtherAction(w: World, a: Action, p: Partition, limit: nat)
    requires Inv(w) && Allowed(w, a) && !a.Assigned? && !a.Turned? && p in w.periods && p in Apply(w, a).periods
    ensures var next := Apply(w, a);
            JobSteps(next.runner, p) == JobSteps(w.runner, p) && Work(next, p, limit) == Work(w, p, limit)
  {
    var r, next := w.runner, Apply(w, a);
    match a
    case Revoked(_) =>
    case Delivered(_, _) => NoSteps(r.futures, |r.cells|);
    case StepEnds(_, _, _) => if p in r.jobs { StepsCount(r.futures, next.runner.futures, r.jobs[p].delivery); }
  }

  // Every action keeps the work of a period and a serving turn adds to it.
  lemma WorkGrows(w: World, a: Action, p: Partition, limit: nat)
    requires Inv(w) && Allowed(w, a) && !a.Assigned? && p in w.periods && p in Apply(w, a).periods
    requires DoneWithin(w.runner, limit) && JobSteps(w.runner, p) <= limit
    ensures JobSteps(Apply(w, a).runner, p) <= limit
    ensures Work(Apply(w, a), p, limit) >= Work(w, p, limit) + if Serves(w, a, p) then 1 else 0
  {
    if Serves(w, a, p) {
      ServingTurn(w, p, a.t, limit);
    } else if a.Turned? {
      OtherTurn(w, a.p, a.t, p, limit);
    } else {
      OtherAction(w, a, p, limit);
    }
  }

  // ---------------------------------------------------------------- a period

  // The turns among the actions from one position to another that serve the partition.
  ghost function Served(ws: seq<World>, actions: seq<Action>, p: Partition, from: nat, to: nat): nat
    requires from <= to <= |actions| <= |ws|
  {
    if to == from then 0
    else Served(ws, actions, p, from, to - 1) + if Serves(ws[to - 1], actions[to - 1], p) then 1 else 0
  }

  // The partition is assigned by the action at s and stays so; no other assignment follows up to k.
  ghost predicate Holds(ws: seq<World>, actions: seq<Action>, p: Partition, s: nat, k: nat) {
    && s < k < |ws| == |actions| + 1 && actions[s].Assigned? && p in actions[s].partitions
    && (forall i :: s < i < k ==> !actions[i].Assigned?)
    && forall i :: s < i <= k ==> p in ws[i].periods
  }

  lemma {:induction false} ServedWork(ws: seq<World>, actions: seq<Action>, p: Partition, s: nat, k: nat, limit: nat)
    requires Execution(ws, actions) && Holds(ws, actions, p, s, k)
    requires forall i :: s < i <= k ==> DoneWithin(ws[i].runner, limit)
    ensures JobSteps(ws[k].runner, p) <= limit && Served(ws, actions, p, s + 1, k) <= Work(ws[k], p, limit)
  {
    if k == s + 1 {
      assert Position(s);
      assert ws[k] == Apply(ws[s], actions[s]);
      assert p !in ws[k].runner.jobs;
      assert Served(ws, actions, p, k, k) == 0;
    } else {
      ServedWork(ws, actions, p, s, k - 1, limit);
      InvHolds(ws, actions, k - 1);
      assert Position(k - 1);
      WorkGrows(ws[k - 1], actions[k - 1], p, limit);
    }
  }

  /** Bounded progress: when a delivery is DONE after at most `limit` steps, then `limit + 1` serving
      turns for each record delivered in an ownership period commit them all, whatever other partitions,
      late steps and turns that are not due come in between. */
  lemma ServedRecordsAreCommitted(ws: seq<World>, actions: seq<Action>, p: Partition, s: nat, k: nat, limit: nat)
    requires Execution(ws, actions) && Holds(ws, actions, p, s, k)
    requires forall i :: s < i <= k ==> DoneWithin(ws[i].runner, limit)
    requires Served(ws, actions, p, s + 1, k) >= (limit + 1) * |ws[k].periods[p].delivered|
    ensures p !in ws[k].runner.jobs && |ws[k].periods[p].committed| == |ws[k].periods[p].delivered|
    ensures forall i :: 0 <= i < |ws[k].periods[p].delivered| ==>
              ws[k].periods[p].committed[i] == ws[k].periods[p].delivered[i] + 1
  {
    ServedWork(ws, actions, p, s, k, limit);
    InvHolds(ws, actions, k);
    var r, period := ws[k].runner, ws[k].periods[p];
    assert PeriodSound(r, p, period);
    if p in r.jobs {
      BelowAll(limit, |period.committed|, |period.delivered|, JobSteps(r, p));
      assert false;
    }
  }

  lemma BelowAll(limit: nat, committed: nat, delivered: nat, steps: nat)
    requires committed < delivered && steps <= limit
    ensures (limit + 1) * committed + steps < (limit + 1) * delivered
  {
    assert (limit + 1) * (committed + 1) <= (limit + 1) * delivered;
  }

  /** A serving turn is never far: the step of a job that waits for it may end, then one turn collects
      its result, and every turn from the instant the job is due serves it. */
  lemma JobGetsServed(w: World, p: Partition, t: Turn, later: Turn)
    requires Inv(w) && p in w.runner.jobs
    ensures Idle(w.runner, p) ==>
              exists f :: w.runner.jobs[p].future == Some(f) && forall done, delay {:trigger StepEnds(f, done, delay)} ::
                Allowed(w, StepEnds(f, done, delay)) && !Idle(Apply(w, StepEnds(f, done, delay)).runner, p)
    ensures !Idle(w.runner, p) && t.now < DueAt(w.runner, p, t) <= later.now && later.commitTaken ==>
              Serves(Apply(w, Turned(p, t)), Turned(p, later), p)
    ensures !Idle(w.runner, p) && t.now >= DueAt(w.runner, p, t) && t.commitTaken ==> Serves(w, Turned(p, t), p)
  {
    assert PeriodSound(w.runner, p, w.periods[p]);
    if Idle(w.runner, p) {
      var f := w.runner.jobs[p].future.value;
      assert w.runner.jobs[p].future == Some(f);
    } else {
      TurnTells(w, p, t);
    }
  }
}
