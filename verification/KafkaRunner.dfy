/** Contiguous offset commits over asynchronous steps, buffered records and rebalances. */
module KafkaRunner {
  import opened Wrappers

  type Partition = (string, int)

  // One Delivery object: where its record came from, and the step result that took it to DONE.
  datatype Cell = Cell(partition: Partition, offset: int, doneBy: Option<nat>)

  datatype Job = Job(delivery: nat, generation: nat, future: Option<nat>, due: int, buffered: seq<int>)

  // A submitted step; delay is None when the step raised.
  datatype Future = Running(delivery: nat) | Returned(delivery: nat, delay: Option<int>)

  // Deliveries and futures are objects: dropping a job leaves them behind, still able to change.
  datatype Runner = Runner(
    owned: set<Partition>, generation: nat, jobs: map<Partition, Job>, cells: seq<Cell>, futures: seq<Future>)

  function Initial(): (r: Runner)
    ensures Wired(r)
  {
    Runner({}, 0, map[], [], [])
  }

  // Every reference leads to an object.
  ghost predicate Wired(r: Runner) {
    && (forall p :: p in r.jobs ==>
          && r.jobs[p].delivery < |r.cells|
          && (r.jobs[p].future.Some? ==> r.jobs[p].future.value < |r.futures|))
    && (forall f :: 0 <= f < |r.futures| ==> r.futures[f].delivery < |r.cells|)
  }

  // ---------------------------------------------------------------- callbacks

  function Assign(r: Runner, partitions: set<Partition>): (next: Runner)
    requires Wired(r)
    ensures Wired(next)
  {
    r.(owned := partitions, generation := r.generation + 1, jobs := map[])
  }

  function Revoke(r: Runner, partitions: set<Partition>): (next: Runner)
    requires Wired(r)
    ensures Wired(next)
  {
    r.(owned := r.owned - partitions, jobs := r.jobs - partitions)
  }

  function StartJob(r: Runner, p: Partition, offset: int, generation: nat, buffered: seq<int>): (next: Runner)
    requires Wired(r)
    ensures Wired(next)
  {
    r.(cells := r.cells + [Cell(p, offset, None)],
       jobs := r.jobs[p := Job(|r.cells|, generation, None, 0, buffered)])
  }

  function Record(r: Runner, p: Partition, offset: int): (next: Runner)
    requires Wired(r)
    ensures Wired(next)
  {
    if p !in r.owned then r
    else if p in r.jobs then r.(jobs := r.jobs[p := r.jobs[p].(buffered := r.jobs[p].buffered + [offset])])
    else StartJob(r, p, offset, r.generation, [])
  }

  // A pool thread ends a step, of a current job or of one dropped long ago.
  function Finish(r: Runner, f: nat, done: bool, delay: Option<int>): (next: Runner)
    requires Wired(r) && f < |r.futures| && r.futures[f].Running?
    ensures Wired(next)
  {
    var c := r.futures[f].delivery;
    r.(futures := r.futures[f := Returned(c, delay)],
       cells := if done then r.cells[c := r.cells[c].(doneBy := Some(f))] else r.cells)
  }

  // ---------------------------------------------------------------- _advance, one partition

  // The instant the turn reads, the runner's retry_max, and whether the broker takes the commit.
  datatype Turn = Turn(now: int, retryMax: int, commitTaken: bool)

  // The job with the result of its step collected; None while the step still runs.
  function CollectResult(r: Runner, j: Job, t: Turn): Option<Job>
    requires j.future.Some? ==> j.future.value < |r.futures|
  {
    if j.future.None? then Some(j)
    else
      match r.futures[j.future.value]
      case Running(_) => None
      case Returned(_, delay) => Some(j.(future := None, due := t.now + if delay.Some? then delay.value else t.retryMax))
  }

  // Commit, retry later, start the next buffered record, or submit the next step.
  function Proceed(r: Runner, p: Partition, j: Job, t: Turn): (next: Runner)
    requires Wired(r) && j.delivery < |r.cells| && j.future.None?
    ensures Wired(next)
  {
    if t.now < j.due then r.(jobs := r.jobs[p := j])
    else if r.cells[j.delivery].doneBy.Some? then
      if !t.commitTaken then r.(jobs := r.jobs[p := j.(due := t.now + t.retryMax)])
      else if j.buffered != [] then StartJob(r, p, j.buffered[0], j.generation, j.buffered[1..])
      else r.(jobs := r.jobs - {p})
    else
      r.(futures := r.futures + [Running(j.delivery)], jobs := r.jobs[p := j.(future := Some(|r.futures|))])
  }

  // The job the turn works on; other jobs are passed over.
  function Current(r: Runner, p: Partition, t: Turn): Option<Job>
    requires Wired(r)
  {
    if p !in r.jobs || p !in r.owned || r.jobs[p].generation != r.generation then None
    else CollectResult(r, r.jobs[p], t)
  }

  function AdvanceOne(r: Runner, p: Partition, t: Turn): (next: Runner)
    requires Wired(r)
    ensures Wired(next)
  {
    match Current(r, p, t)
    case None => r
    case Some(j) => Proceed(r, p, j, t)
  }

  // The offset the turn commits for the partition, if it commits.
  function Commits(r: Runner, p: Partition, t: Turn): Option<int>
    requires Wired(r)
  {
    match Current(r, p, t)
    case None => None
    case Some(j) =>
      if t.now >= j.due && r.cells[j.delivery].doneBy.Some? && t.commitTaken then Some(r.cells[j.delivery].offset + 1)
      else None
  }

  function AdvanceAll(r: Runner, ps: seq<Partition>, ts: seq<Turn>): (next: Runner)
    requires Wired(r) && |ts| == |ps|
    ensures Wired(next)
  {
    if ps == [] then r else AdvanceOne(AdvanceAll(r, ps[..|ps| - 1], ts[..|ps| - 1]), ps[|ps| - 1], ts[|ps| - 1])
  }

  // ---------------------------------------------------------------- what a turn means

  // Nothing to work on: no current job, or its step has not returned.
  ghost predicate Idle(r: Runner, p: Partition)
    requires Wired(r)
  {
    || p !in r.jobs || p !in r.owned || r.jobs[p].generation != r.generation
    || (r.jobs[p].future.Some? && r.futures[r.jobs[p].future.value].Running?)
  }

  // When the job may be worked on: a step returned since the last turn counts from this one, with the
  // longest retry delay when it raised.
  ghost function DueAt(r: Runner, p: Partition, t: Turn): int
    requires Wired(r) && !Idle(r, p)
  {
    if r.jobs[p].future.None? then r.jobs[p].due
    else match r.futures[r.jobs[p].future.value].delay case None => t.now + t.retryMax case Some(d) => t.now + d
  }

  // Only the partition's own job changes; objects are never taken away.
  ghost predicate OnlyJobChanges(r: Runner, next: Runner, p: Partition) {
    && next.owned == r.owned && next.generation == r.generation && next.jobs - {p} == r.jobs - {p}
    && r.cells <= next.cells && r.futures <= next.futures
  }

  // The job sleeps until the instant; its delivery and its buffer stay.
  ghost predicate Sleeps(r: Runner, next: Runner, p: Partition, due: int)
    requires p in r.jobs
  {
    && next.cells == r.cells && next.futures == r.futures
    && p in next.jobs && next.jobs[p] == r.jobs[p].(future := None, due := due)
  }

  // One new step runs for the delivery and the job points at it.
  ghost predicate Submits(r: Runner, next: Runner, p: Partition)
    requires p in r.jobs
  {
    && next.cells == r.cells && next.futures == r.futures + [Running(r.jobs[p].delivery)]
    && p in next.jobs && next.jobs[p].future == Some(|r.futures|)
    && next.jobs[p].delivery == r.jobs[p].delivery && next.jobs[p].buffered == r.jobs[p].buffered
    && next.jobs[p].generation == r.jobs[p].generation
  }

  // The first buffered record gets a new delivery and is due at once; without one the job ends.
  ghost predicate GoesOn(r: Runner, next: Runner, p: Partition)
    requires p in r.jobs
  {
    var j := r.jobs[p];
    && next.futures == r.futures
    && if j.buffered == [] then p !in next.jobs && next.cells == r.cells
       else
         && next.cells == r.cells + [Cell(p, j.buffered[0], None)]
         && p in next.jobs && next.jobs[p] == Job(|r.cells|, j.generation, None, 0, j.buffered[1..])
  }

  ghost predicate TurnMeans(r: Runner, next: Runner, p: Partition, t: Turn)
    requires Wired(r)
  {
    if Idle(r, p) then next == r
    else
      && OnlyJobChanges(r, next, p)
      && if t.now < DueAt(r, p, t) then Sleeps(r, next, p, DueAt(r, p, t))
         else if !IsDone(r, r.jobs[p].delivery) then Submits(r, next, p)
         else if !t.commitTaken then Sleeps(r, next, p, t.now + t.retryMax)
         else GoesOn(r, next, p)
  }

  lemma TurnMeant(r: Runner, p: Partition, t: Turn)
    requires Wired(r)
    ensures TurnMeans(r, AdvanceOne(r, p, t), p, t)
  {
  }

  // One turn after the other, from the first state to the last.
  ghost predicate Turns(rs: seq<Runner>, r: Runner, next: Runner, ps: seq<Partition>, ts: seq<Turn>) {
    && |rs| == |ps| + 1 && |ts| == |ps| && rs[0] == r && rs[|ps|] == next
    && forall i {:trigger Position(i)} :: 0 <= i < |ps| ==> Wired(rs[i]) && TurnMeans(rs[i], rs[i + 1], ps[i], ts[i])
  }

  lemma {:induction false} TurnsMeant(r: Runner, ps: seq<Partition>, ts: seq<Turn>) returns (rs: seq<Runner>)
    requires Wired(r) && |ts| == |ps|
    ensures Turns(rs, r, AdvanceAll(r, ps, ts), ps, ts)
  {
    if ps == [] {
      rs := [r];
    } else {
      var n := |ps| - 1;
      var init := TurnsMeant(r, ps[..n], ts[..n]);
      rs := init + [AdvanceAll(r, ps, ts)];
      TurnMeant(init[n], ps[n], ts[n]);
      forall i | 0 <= i < |ps| ensures Wired(rs[i]) && TurnMeans(rs[i], rs[i + 1], ps[i], ts[i]) {
        assert i < n ==> Position(i) && ps[..n][i] == ps[i] && ts[..n][i] == ts[i];
      }
    }
  }

  // ---------------------------------------------------------------- the class

  class Loop {
    var owned: set<Partition>
    var generation: nat
    var jobs: map<Partition, Job>
    var cells: seq<Cell>
    var futures: seq<Future>

    ghost function State(): Runner
      reads this
    {
      Runner(owned, generation, jobs, cells, futures)
    }

    ghost predicate Valid()
      reads this
    {
      Wired(State())
    }

    constructor ()
      ensures Valid() && State() == Initial()
    {
      owned, generation, jobs, cells, futures := {}, 0, map[], [], [];
    }

    method OnAssign(partitions: set<Partition>)
      requires Valid()
      modifies this
      ensures Valid() && State() == Assign(old(State()), partitions)
      ensures owned == partitions && generation == old(generation) + 1 && jobs == map[]
      ensures cells == old(cells) && futures == old(futures)
    {
      jobs := map[];
      generation := generation + 1;
      owned := partitions;
    }

    method OnRevoke(partitions: seq<Partition>)
      requires Valid()
      modifies this
      ensures Valid() && State() == Revoke(old(State()), Elements(partitions))
      ensures forall p :: p in owned <==> p in old(owned) && p !in partitions
      ensures forall p :: p in jobs <==> p in old(jobs) && p !in partitions
      ensures forall p :: p in jobs ==> jobs[p] == old(jobs)[p]
      ensures generation == old(generation) && cells == old(cells) && futures == old(futures)
    {
      ghost var before := State();
      for i := 0 to |partitions|
        invariant State() == Revoke(before, Elements(partitions[..i]))
      {
        assert partitions[..i + 1] == partitions[..i] + [partitions[i]];
        assert Elements(partitions[..i + 1]) == Elements(partitions[..i]) + {partitions[i]};
        owned := owned - {partitions[i]};
        jobs := jobs - {partitions[i]};
      }
      assert partitions[..|partitions|] == partitions;
    }

    method OnRecord(p: Partition, offset: int)
      requires Valid()
      modifies this
      ensures Valid() && State() == Record(old(State()), p, offset)
      ensures owned == old(owned) && generation == old(generation) && futures == old(futures)
      ensures jobs - {p} == old(jobs) - {p} && (p in jobs <==> p in old(jobs) || p in owned)
      ensures p !in owned ==> jobs == old(jobs) && cells == old(cells)
      ensures p in owned && p in old(jobs) ==>
                cells == old(cells) && jobs[p] == old(jobs)[p].(buffered := old(jobs)[p].buffered + [offset])
      ensures p in owned && p !in old(jobs) ==>
                cells == old(cells) + [Cell(p, offset, None)] && jobs[p] == Job(|old(cells)|, generation, None, 0, [])
    {
      if p !in owned { return; }
      if p in jobs {
        jobs := jobs[p := jobs[p].(buffered := jobs[p].buffered + [offset])];
      } else {
        Start(p, offset, generation, []);
      }
    }

    // A new Delivery and its Job.
    method Start(p: Partition, offset: int, jobGeneration: nat, buffered: seq<int>)
      requires Valid()
      modifies this`cells, this`jobs
      ensures Valid() && State() == StartJob(old(State()), p, offset, jobGeneration, buffered)
    {
      jobs := jobs[p := Job(|cells|, jobGeneration, None, 0, buffered)];
      cells := cells + [Cell(p, offset, None)];
    }

    method StepReturned(f: nat, done: bool, delay: Option<int>)
      requires Valid() && f < |futures| && futures[f].Running?
      modifies this
      ensures Valid() && State() == Finish(old(State()), f, done, delay)
      ensures owned == old(owned) && generation == old(generation) && jobs == old(jobs)
      ensures futures == old(futures)[f := Returned(old(futures)[f].delivery, delay)]
      ensures var c := old(futures)[f].delivery;
              cells == if done then old(cells)[c := old(cells)[c].(doneBy := Some(f))] else old(cells)
    {
      var c := futures[f].delivery;
      futures := futures[f := Returned(c, delay)];
      if done { cells := cells[c := cells[c].(doneBy := Some(f))]; }
    }

    /** _advance over the jobs listed when it began. */
    method Advance(ps: seq<Partition>, ts: seq<Turn>)
      requires Valid() && |ts| == |ps|
      modifies this
      ensures Valid() && State() == AdvanceAll(old(State()), ps, ts)
      ensures exists rs :: Turns(rs, old(State()), State(), ps, ts)
    {
      ghost var before := State();
      for i := 0 to |ps|
        invariant Valid() && State() == AdvanceAll(before, ps[..i], ts[..i])
      {
        assert ps[..i + 1][..i] == ps[..i] && ts[..i + 1][..i] == ts[..i];
        TakeTurn(ps[i], ts[i]);
      }
      assert ps[..|ps|] == ps && ts[..|ps|] == ts;
      ghost var rs := TurnsMeant(before, ps, ts);
    }

    method TakeTurn(p: Partition, t: Turn)
      requires Valid()
      modifies this
      ensures Valid() && State() == AdvanceOne(old(State()), p, t)
      ensures TurnMeans(old(State()), State(), p, t)
    {
      TurnMeant(State(), p, t);
      if p !in jobs || p !in owned || jobs[p].generation != generation { return; }
      var job := jobs[p];
      if job.future.Some? {
        var result := futures[job.future.value];
        if result.Running? { return; }
        job := job.(future := None, due := t.now + if result.delay.Some? then result.delay.value else t.retryMax);
      }
      if t.now < job.due {
        jobs := jobs[p := job];
      } else if cells[job.delivery].doneBy.Some? {
        if !t.commitTaken {
          jobs := jobs[p := job.(due := t.now + t.retryMax)];
        } else if job.buffered != [] {
          Start(p, job.buffered[0], job.generation, job.buffered[1..]);
        } else {
          jobs := jobs - {p};
        }
      } else {
        jobs := jobs[p := job.(future := Some(|futures|))];
        futures := futures + [Running(job.delivery)];
      }
    }
  }

  function Elements(ps: seq<Partition>): set<Partition> { set p | p in ps }

  // ---------------------------------------------------------------- ownership periods

  // What one partition has seen since it was last assigned: the records delivered, the Delivery each
  // of them was given, the offsets committed, and how many objects existed when the period began.
  datatype Period = Period(delivered: seq<int>, ids: seq<nat>, committed: seq<int>, firstCell: nat, firstFuture: nat)

  datatype World = World(runner: Runner, periods: map<Partition, Period>)

  datatype Action =
    | Assigned(partitions: set<Partition>)
    | Revoked(partitions: set<Partition>)
    | Delivered(p: Partition, offset: int)
    | StepEnds(f: nat, done: bool, delay: Option<int>)
    | Turned(p: Partition, t: Turn)

  // The broker delivers a partition's records in increasing offset order while it stays owned.
  ghost predicate Allowed(w: World, a: Action) {
    && Wired(w.runner)
    && match a
       case Delivered(p, offset) =>
         p in w.periods && w.periods[p].delivered != [] ==>
           offset > w.periods[p].delivered[|w.periods[p].delivered| - 1]
       case StepEnds(f, _, _) => f < |w.runner.futures| && w.runner.futures[f].Running?
       case _ => true
  }

  ghost function RecordPeriod(r: Runner, period: Period, p: Partition, offset: int): Period {
    period.(delivered := period.delivered + [offset], ids := if p in r.jobs then period.ids else period.ids + [|r.cells|])
  }

  ghost function TurnPeriod(r: Runner, period: Period, p: Partition, t: Turn): Period
    requires Wired(r)
  {
    match Commits(r, p, t)
    case None => period
    case Some(next) =>
      period.(committed := period.committed + [next],
              ids := if r.jobs[p].buffered != [] then period.ids + [|r.cells|] else period.ids)
  }

  ghost function Apply(w: World, a: Action): World
    requires Allowed(w, a)
  {
    var r := w.runner;
    match a
    case Assigned(ps) => World(Assign(r, ps), map p | p in ps :: Period([], [], [], |r.cells|, |r.futures|))
    case Revoked(ps) => World(Revoke(r, ps), w.periods - ps)
    case Delivered(p, offset) =>
      World(Record(r, p, offset),
            if p in r.owned && p in w.periods then w.periods[p := RecordPeriod(r, w.periods[p], p, offset)] else w.periods)
    case StepEnds(f, done, delay) => World(Finish(r, f, done, delay), w.periods)
    case Turned(p, t) =>
      World(AdvanceOne(r, p, t),
            if p in w.periods then w.periods[p := TurnPeriod(r, w.periods[p], p, t)] else w.periods)
  }

  // ---------------------------------------------------------------- the invariant

  ghost predicate Increasing(s: seq<int>) { forall i, j :: 0 <= i < j < |s| ==> s[i] < s[j] }

  // The Delivery of the i-th record belongs to this period and this record, and only steps submitted
  // in this period ever worked on it.
  ghost predicate OfPeriod(r: Runner, p: Partition, period: Period, i: nat)
    requires i < |period.ids| && i < |period.delivered|
  {
    var c := period.ids[i];
    && period.firstCell <= c < |r.cells| && r.cells[c].partition == p && r.cells[c].offset == period.delivered[i]
    && (r.cells[c].doneBy.Some? ==> period.firstFuture <= r.cells[c].doneBy.value < |r.futures|)
    && forall f :: 0 <= f < |r.futures| && r.futures[f].delivery == c ==> f >= period.firstFuture
  }

  ghost predicate Placed(r: Runner, p: Partition, period: Period) {
    var n := |period.committed|;
    if p in r.jobs then
      && |period.ids| == n + 1 && r.jobs[p].delivery == period.ids[n] && r.jobs[p].generation == r.generation
      && |period.delivered| == n + 1 + |r.jobs[p].buffered| && r.jobs[p].buffered == period.delivered[n + 1..]
    else |period.ids| == n && |period.delivered| == n
  }

  ghost predicate PeriodSound(r: Runner, p: Partition, period: Period) {
    && Placed(r, p, period) && Increasing(period.delivered)
    && period.firstCell <= |r.cells| && period.firstFuture <= |r.futures|
    && (forall i :: 0 <= i < |period.ids| ==> OfPeriod(r, p, period, i))
    && (forall i :: 0 <= i < |period.committed| ==>
          period.committed[i] == period.delivered[i] + 1 && IsDone(r, period.ids[i]))
  }

  ghost predicate IsDone(r: Runner, c: nat) { c < |r.cells| && r.cells[c].doneBy.Some? }

  // A current job's delivery is worked on by its own unfinished step alone.
  ghost predicate StepsSound(r: Runner)
    requires Wired(r)
  {
    && (forall p :: p in r.jobs && r.jobs[p].future.Some? ==>
          r.futures[r.jobs[p].future.value].delivery == r.jobs[p].delivery)
    && (forall p, f :: p in r.jobs && 0 <= f < |r.futures| && r.futures[f] == Running(r.jobs[p].delivery) ==>
          r.jobs[p].future == Some(f))
    && (forall p, q :: p in r.jobs && q in r.jobs && r.jobs[p].delivery == r.jobs[q].delivery ==> p == q)
  }

  ghost predicate Inv(w: World) {
    && Wired(w.runner) && w.periods.Keys == w.runner.owned && w.runner.jobs.Keys <= w.runner.owned
    && (forall p :: p in w.periods ==> PeriodSound(w.runner, p, w.periods[p]))
    && StepsSound(w.runner)
  }

  // ---------------------------------------------------------------- preservation

  // Objects are added and steps end; a Delivery is taken to DONE only by its own step.
  ghost predicate Extends(r: Runner, next: Runner) {
    && |r.cells| <= |next.cells| && |r.futures| <= |next.futures|
    && (forall c :: 0 <= c < |r.cells| ==>
          && next.cells[c].partition == r.cells[c].partition && next.cells[c].offset == r.cells[c].offset
          && (next.cells[c].doneBy == r.cells[c].doneBy ||
              (next.cells[c].doneBy.Some? && next.cells[c].doneBy.value < |r.futures| &&
               r.futures[next.cells[c].doneBy.value].delivery == c)))
    && (forall f :: 0 <= f < |r.futures| ==> next.futures[f].delivery == r.futures[f].delivery)
  }

  lemma OfPeriodKept(r: Runner, next: Runner, p: Partition, period: Period, i: nat)
    requires Extends(r, next) && period.firstFuture <= |r.futures|
    requires i < |period.ids| && i < |period.delivered| && OfPeriod(r, p, period, i)
    ensures OfPeriod(next, p, period, i)
  {
  }

  // A partition whose own job keeps its record and its buffer keeps its period.
  lemma PeriodKept(r: Runner, next: Runner, p: Partition, period: Period)
    requires PeriodSound(r, p, period) && Extends(r, next) && Placed(next, p, period)
    ensures PeriodSound(next, p, period)
  {
    forall i | 0 <= i < |period.ids| ensures OfPeriod(next, p, period, i) { OfPeriodKept(r, next, p, period, i); }
  }

  lemma StartJobKeeps(r: Runner, p: Partition, offset: int, buffered: seq<int>)
    requires Wired(r) && StepsSound(r)
    ensures StepsSound(StartJob(r, p, offset, r.generation, buffered))
  {
  }

  lemma StartedPeriod(r: Runner, p: Partition, period: Period, offset: int, buffered: seq<int>)
    requires Wired(r) && |period.ids| == |period.committed| && |period.delivered| == |period.committed| + 1 + |buffered|
    requires offset == period.delivered[|period.committed|] && buffered == period.delivered[|period.committed| + 1..]
    requires Increasing(period.delivered) && period.firstCell <= |r.cells| && period.firstFuture <= |r.futures|
    requires forall i :: 0 <= i < |period.ids| ==> OfPeriod(r, p, period, i)
    requires forall i :: 0 <= i < |period.committed| ==>
               period.committed[i] == period.delivered[i] + 1 && IsDone(r, period.ids[i])
    ensures PeriodSound(StartJob(r, p, offset, r.generation, buffered), p, period.(ids := period.ids + [|r.cells|]))
  {
    var next, after := StartJob(r, p, offset, r.generation, buffered), period.(ids := period.ids + [|r.cells|]);
    forall i | 0 <= i < |after.ids| ensures OfPeriod(next, p, after, i) {
      if i < |period.ids| { OfPeriodKept(r, next, p, period, i); }
    }
  }

  lemma RevokeKeeps(w: World, ps: set<Partition>)
    requires Inv(w)
    ensures Inv(Apply(w, Revoked(ps)))
  {
    var next := Apply(w, Revoked(ps));
    forall p | p in next.periods ensures PeriodSound(next.runner, p, next.periods[p]) {
      assert PeriodSound(w.runner, p, w.periods[p]);
      PeriodKept(w.runner, next.runner, p, w.periods[p]);
    }
  }

  // Every other partition is left alone.
  ghost predicate OthersAlone(r: Runner, next: Runner, p: Partition) {
    && Extends(r, next) && next.generation == r.generation && next.owned == r.owned
    && (forall q :: q != p ==> (q in next.jobs <==> q in r.jobs))
    && (forall q :: q != p && q in r.jobs ==> next.jobs[q] == r.jobs[q])
  }

  lemma OthersKept(w: World, next: World, p: Partition)
    requires Inv(w) && Wired(next.runner) && OthersAlone(w.runner, next.runner, p) && p in w.periods
    requires p in next.periods && next.periods == w.periods[p := next.periods[p]] && PeriodSound(next.runner, p, next.periods[p])
    requires StepsSound(next.runner)
    ensures Inv(next)
  {
    forall q | q in next.periods ensures PeriodSound(next.runner, q, next.periods[q]) {
      if q != p {
        assert PeriodSound(w.runner, q, w.periods[q]);
        PeriodKept(w.runner, next.runner, q, w.periods[q]);
      }
    }
  }

  lemma GrownPeriod(r: Runner, p: Partition, period: Period, offset: int)
    requires PeriodSound(r, p, period) && (period.delivered != [] ==> offset > period.delivered[|period.delivered| - 1])
    ensures var grown := period.(delivered := period.delivered + [offset]);
            && Increasing(grown.delivered) && (forall i :: 0 <= i < |period.ids| ==> OfPeriod(r, p, grown, i))
            && forall i :: 0 <= i < |period.committed| ==>
                 period.committed[i] == grown.delivered[i] + 1 && IsDone(r, period.ids[i])
  {
    var grown := period.(delivered := period.delivered + [offset]);
    forall i | 0 <= i < |period.ids| ensures OfPeriod(r, p, grown, i) { assert OfPeriod(r, p, period, i); }
  }

  lemma BufferedPeriod(r: Runner, p: Partition, period: Period, offset: int)
    requires Wired(r) && p in r.jobs && p in r.owned && PeriodSound(r, p, period)
    requires period.delivered != [] ==> offset > period.delivered[|period.delivered| - 1]
    ensures PeriodSound(Record(r, p, offset), p, RecordPeriod(r, period, p, offset))
  {
    GrownPeriod(r, p, period, offset);
    var n := |period.committed|;
    assert (period.delivered + [offset])[n + 1..] == period.delivered[n + 1..] + [offset];
    var next, grown := Record(r, p, offset), RecordPeriod(r, period, p, offset);
    forall i | 0 <= i < |grown.ids| ensures OfPeriod(next, p, grown, i) { OfPeriodKept(r, next, p, grown, i); }
  }

  lemma RecordAlone(r: Runner, p: Partition, offset: int)
    requires Wired(r) && StepsSound(r) && p in r.owned
    ensures OthersAlone(r, Record(r, p, offset), p) && StepsSound(Record(r, p, offset))
  {
    if p !in r.jobs { StartJobKeeps(r, p, offset, []); }
  }

  lemma RecordedPeriod(r: Runner, p: Partition, period: Period, offset: int)
    requires Wired(r) && p in r.owned && PeriodSound(r, p, period)
    requires period.delivered != [] ==> offset > period.delivered[|period.delivered| - 1]
    ensures PeriodSound(Record(r, p, offset), p, RecordPeriod(r, period, p, offset))
  {
    if p in r.jobs {
      BufferedPeriod(r, p, period, offset);
    } else {
      GrownPeriod(r, p, period, offset);
      StartedPeriod(r, p, period.(delivered := period.delivered + [offset]), offset, []);
    }
  }

  lemma DeliveredKeeps(w: World, p: Partition, offset: int)
    requires Inv(w) && Allowed(w, Delivered(p, offset))
    ensures Inv(Apply(w, Delivered(p, offset)))
  {
    if p in w.runner.owned {
      assert PeriodSound(w.runner, p, w.periods[p]);
      RecordAlone(w.runner, p, offset);
      RecordedPeriod(w.runner, p, w.periods[p], offset);
      OthersKept(w, Apply(w, Delivered(p, offset)), p);
    }
  }

  lemma FinishKeeps(w: World, f: nat, done: bool, delay: Option<int>)
    requires Inv(w) && Allowed(w, StepEnds(f, done, delay))
    ensures Inv(Apply(w, StepEnds(f, done, delay)))
  {
    var next := Apply(w, StepEnds(f, done, delay));
    assert Extends(w.runner, next.runner);
    forall p | p in next.periods ensures PeriodSound(next.runner, p, next.periods[p]) {
      assert PeriodSound(w.runner, p, w.periods[p]);
      PeriodKept(w.runner, next.runner, p, w.periods[p]);
    }
  }

  // ---------------------------------------------------------------- a turn

  // The job the turn works on has its own delivery and buffer, and no step is running for it.
  ghost predicate Collected(r: Runner, p: Partition, j: Job)
    requires Wired(r)
  {
    && p in r.jobs && j.delivery == r.jobs[p].delivery && j.buffered == r.jobs[p].buffered
    && j.generation == r.jobs[p].generation && j.future.None?
    && (r.jobs[p].future.Some? ==> r.futures[r.jobs[p].future.value].Returned?)
  }

  lemma ChangedSteps(r: Runner, p: Partition, j: Job)
    requires Wired(r) && StepsSound(r) && Collected(r, p, j)
    ensures StepsSound(r.(jobs := r.jobs[p := j]))
  {
  }

  lemma SubmittedSteps(r: Runner, p: Partition, j: Job)
    requires Wired(r) && StepsSound(r) && Collected(r, p, j)
    ensures StepsSound(r.(futures := r.futures + [Running(j.delivery)], jobs := r.jobs[p := j.(future := Some(|r.futures|))]))
  {
  }

  lemma CurrentCollected(r: Runner, p: Partition, t: Turn)
    requires Wired(r) && Current(r, p, t).Some?
    ensures Collected(r, p, Current(r, p, t).value)
  {
  }

  lemma TurnSteps(r: Runner, p: Partition, t: Turn)
    requires Wired(r) && StepsSound(r)
    ensures StepsSound(AdvanceOne(r, p, t))
  {
    if Current(r, p, t).Some? {
      var j := Current(r, p, t).value;
      CurrentCollected(r, p, t);
      if t.now < j.due {
        ChangedSteps(r, p, j);
      } else if r.cells[j.delivery].doneBy.None? {
        SubmittedSteps(r, p, j);
      } else if !t.commitTaken {
        ChangedSteps(r, p, j.(due := t.now + t.retryMax));
      } else if j.buffered != [] {
        StartJobKeeps(r, p, j.buffered[0], j.buffered[1..]);
      }
    }
  }

  // The period with the offset of its next record committed.
  lemma CommittedPeriod(r: Runner, p: Partition, period: Period)
    requires Wired(r) && p in r.jobs && PeriodSound(r, p, period) && IsDone(r, r.jobs[p].delivery)
    ensures var n := |period.committed|;
            var after := period.(committed := period.committed + [r.cells[r.jobs[p].delivery].offset + 1]);
            && |after.committed| == n + 1 && |period.ids| == n + 1 && n < |period.delivered|
            && (forall i :: 0 <= i < |after.ids| ==> OfPeriod(r, p, after, i))
            && forall i :: 0 <= i < |after.committed| ==>
                 after.committed[i] == after.delivered[i] + 1 && IsDone(r, after.ids[i])
  {
    assert OfPeriod(r, p, period, |period.committed|);
    var after := period.(committed := period.committed + [r.cells[r.jobs[p].delivery].offset + 1]);
    forall i | 0 <= i < |after.ids| ensures OfPeriod(r, p, after, i) { assert OfPeriod(r, p, period, i); }
  }

  lemma EndedPeriod(r: Runner, p: Partition, period: Period)
    requires Wired(r) && p in r.jobs && r.jobs[p].buffered == [] && PeriodSound(r, p, period)
    requires IsDone(r, r.jobs[p].delivery)
    ensures var offset := r.cells[r.jobs[p].delivery].offset;
            PeriodSound(r.(jobs := r.jobs - {p}), p, period.(committed := period.committed + [offset + 1]))
  {
    CommittedPeriod(r, p, period);
    var next := r.(jobs := r.jobs - {p});
    var committed := period.(committed := period.committed + [r.cells[r.jobs[p].delivery].offset + 1]);
    forall i | 0 <= i < |committed.ids| ensures OfPeriod(next, p, committed, i) { OfPeriodKept(r, next, p, committed, i); }
  }

  lemma CommitTurn(r: Runner, p: Partition, j: Job, t: Turn, period: Period)
    requires Wired(r) && p in r.jobs && p in r.owned && PeriodSound(r, p, period)
    requires Current(r, p, t) == Some(j) && t.now >= j.due && IsDone(r, j.delivery) && t.commitTaken
    ensures PeriodSound(AdvanceOne(r, p, t), p, TurnPeriod(r, period, p, t))
  {
    var n := |period.committed|;
    if j.buffered != [] {
      CommittedPeriod(r, p, period);
      var committed := period.(committed := period.committed + [r.cells[j.delivery].offset + 1]);
      assert committed.delivered[n + 1..][1..] == committed.delivered[n + 2..];
      StartedPeriod(r, p, committed, j.buffered[0], j.buffered[1..]);
    } else {
      EndedPeriod(r, p, period);
    }
  }

  // The next step is submitted: a future later than the period's first.
  lemma SubmittedPeriod(r: Runner, p: Partition, j: Job, period: Period)
    requires Wired(r) && PeriodSound(r, p, period) && Collected(r, p, j)
    ensures PeriodSound(r.(futures := r.futures + [Running(j.delivery)], jobs := r.jobs[p := j.(future := Some(|r.futures|))]),
                        p, period)
  {
    var next := r.(futures := r.futures + [Running(j.delivery)], jobs := r.jobs[p := j.(future := Some(|r.futures|))]);
    forall i | 0 <= i < |period.ids| ensures OfPeriod(next, p, period, i) { OfPeriodKept(r, next, p, period, i); }
  }

  // Any other turn leaves the record and the buffer as they are.
  lemma QuietTurn(r: Runner, p: Partition, t: Turn, period: Period)
    requires Wired(r) && p in r.jobs && p in r.owned && PeriodSound(r, p, period) && Commits(r, p, t).None?
    ensures PeriodSound(AdvanceOne(r, p, t), p, TurnPeriod(r, period, p, t))
  {
    if Current(r, p, t).Some? {
      var j := Current(r, p, t).value;
      CurrentCollected(r, p, t);
      if t.now >= j.due && !IsDone(r, j.delivery) {
        SubmittedPeriod(r, p, j, period);
      } else {
        PeriodKept(r, AdvanceOne(r, p, t), p, period);
      }
    }
  }

  lemma TurnAlone(r: Runner, p: Partition, t: Turn)
    requires Wired(r)
    ensures OthersAlone(r, AdvanceOne(r, p, t), p)
    ensures p !in r.jobs ==> AdvanceOne(r, p, t) == r && Commits(r, p, t).None?
  {
  }

  lemma TurnedPeriod(r: Runner, p: Partition, t: Turn, period: Period)
    requires Wired(r) && StepsSound(r) && p in r.jobs && p in r.owned && PeriodSound(r, p, period)
    ensures PeriodSound(AdvanceOne(r, p, t), p, TurnPeriod(r, period, p, t)) && StepsSound(AdvanceOne(r, p, t))
  {
    TurnSteps(r, p, t);
    if Commits(r, p, t).Some? {
      CommitTurn(r, p, Current(r, p, t).value, t, period);
    } else {
      QuietTurn(r, p, t, period);
    }
  }

  lemma TurnKeeps(w: World, p: Partition, t: Turn)
    requires Inv(w)
    ensures Inv(Apply(w, Turned(p, t)))
  {
    TurnAlone(w.runner, p, t);
    if p in w.periods {
      if p in w.runner.jobs {
        assert PeriodSound(w.runner, p, w.periods[p]);
        TurnedPeriod(w.runner, p, t, w.periods[p]);
        OthersKept(w, Apply(w, Turned(p, t)), p);
      } else {
        assert w.periods[p := TurnPeriod(w.runner, w.periods[p], p, t)] == w.periods;
      }
    }
  }

  lemma StepKeeps(w: World, a: Action)
    requires Inv(w) && Allowed(w, a)
    ensures Inv(Apply(w, a))
  {
    match a
    case Assigned(ps) =>
    case Revoked(ps) => RevokeKeeps(w, ps);
    case Delivered(p, offset) => DeliveredKeeps(w, p, offset);
    case StepEnds(f, done, delay) => FinishKeeps(w, f, done, delay);
    case Turned(p, t) => TurnKeeps(w, p, t);
  }

  // ---------------------------------------------------------------- executions

  ghost predicate Execution(ws: seq<World>, actions: seq<Action>) {
    && |ws| == |actions| + 1 && ws[0] == World(Initial(), map[])
    && forall i {:trigger Position(i)} :: 0 <= i < |actions| ==> Allowed(ws[i], actions[i]) && ws[i + 1] == Apply(ws[i], actions[i])
  }

  lemma {:induction false} InvHolds(ws: seq<World>, actions: seq<Action>, k: nat)
    requires Execution(ws, actions) && k < |ws|
    ensures Inv(ws[k])
  {
    if k > 0 {
      InvHolds(ws, actions, k - 1);
      assert Position(k - 1);
      StepKeeps(ws[k - 1], actions[k - 1]);
    }
  }

  /** In every ownership period: committed offsets strictly increase and are exactly those after a
      prefix of the records delivered; every record of that prefix was given a Delivery made in this
      period, and a step submitted in this period took it to DONE. */
  lemma CommitsAreContiguous(ws: seq<World>, actions: seq<Action>, k: nat, p: Partition)
    requires Execution(ws, actions) && k < |ws| && p in ws[k].periods
    ensures var r, period := ws[k].runner, ws[k].periods[p];
            && Increasing(period.committed) && |period.committed| <= |period.ids| <= |period.delivered|
            && forall i :: 0 <= i < |period.committed| ==>
                 && period.committed[i] == period.delivered[i] + 1
                 && IsDone(r, period.ids[i]) && period.ids[i] >= period.firstCell
                 && r.cells[period.ids[i]].partition == p && r.cells[period.ids[i]].offset == period.delivered[i]
                 && r.cells[period.ids[i]].doneBy.value >= period.firstFuture
  {
    InvHolds(ws, actions, k);
    var r, period := ws[k].runner, ws[k].periods[p];
    assert PeriodSound(r, p, period);
    forall i | 0 <= i < |period.committed|
      ensures period.ids[i] >= period.firstCell && r.cells[period.ids[i]].partition == p
      ensures r.cells[period.ids[i]].offset == period.delivered[i]
      ensures r.cells[period.ids[i]].doneBy.value >= period.firstFuture
    {
      assert OfPeriod(r, p, period, i);
    }
  }

  // The commit that a turn makes is the one after the current record.
  lemma TurnCommits(r: Runner, period: Period, p: Partition, t: Turn)
    requires Wired(r) && Commits(r, p, t).Some?
    ensures p in r.jobs && IsDone(r, r.jobs[p].delivery)
    ensures TurnPeriod(r, period, p, t).committed == period.committed + [r.cells[r.jobs[p].delivery].offset + 1]
  {
  }

  /** Only a turn on an owned partition commits, and what it commits is the offset after the current
      record, which is DONE; no rebalance, delivery or late step result ever commits. */
  lemma OnlyTurnsCommit(w: World, a: Action, p: Partition)
    requires Inv(w) && Allowed(w, a) && p in w.periods && p in Apply(w, a).periods && !a.Assigned?
    requires Apply(w, a).periods[p].committed != w.periods[p].committed
    ensures a.Turned? && a.p == p && p in w.runner.jobs && IsDone(w.runner, w.runner.jobs[p].delivery)
    ensures Apply(w, a).periods[p].committed ==
            w.periods[p].committed + [w.runner.cells[w.runner.jobs[p].delivery].offset + 1]
  {
    match a
    case Revoked(_) =>
    case Delivered(_, _) =>
    case StepEnds(_, _, _) =>
    case Turned(q, t) => if q == p && Commits(w.runner, p, t).Some? { TurnCommits(w.runner, w.periods[p], p, t); }
  }

  /** The delivery of a current job is never worked on by two steps at once. */
  lemma OneStepAtATime(ws: seq<World>, actions: seq<Action>, k: nat, p: Partition, f: nat, g: nat)
    requires Execution(ws, actions) && k < |ws| && p in ws[k].runner.jobs
    requires f < |ws[k].runner.futures| && ws[k].runner.futures[f] == Running(ws[k].runner.jobs[p].delivery)
    requires g < |ws[k].runner.futures| && ws[k].runner.futures[g] == Running(ws[k].runner.jobs[p].delivery)
    ensures f == g
  {
    InvHolds(ws, actions, k);
  }
}
