/**
 The registered jobs, the two caps on their runs, and the loop that starts them. The class is the
 mutex-held part of scheduler; the system adds the loop and the runs in flight.
 */
module Scheduler {
  import opened Collections
  import CronSearch

  /** An id is a version 7 UUID in its one canonical spelling, so ids compare as the number they spell. */
  type Id = nat
  type Owner = string
  /** Nanoseconds since the first of year 1. */
  type Time = nat
  type Duration = int
  type Cron = CronSearch.Cron

  const SECOND: Duration := 1000000000
  const MINUTE: Duration := 60 * SECOND
  const IDLE_WAIT: Duration := MINUTE
  const NO_TICK_WAIT: Duration := 24 * 3600 * SECOND
  const MAX_SCHEDULED_RUNS: int := 8
  const MAX_RUNS_PER_MEMBER: int := 3

  /** The minute a time falls into. */
  function MinuteOf(t: Time): nat {
    t / MINUTE
  }

  /** A minute begins after a time exactly where it is later than the one the time falls into. */
  lemma MinuteBegins(n: nat, t: Time)
    ensures (n * MINUTE) % MINUTE == 0 && MinuteOf(n * MINUTE) == n
    ensures n > MinuteOf(t) <==> n * MINUTE > t
  {
    CronSearch.MultipleIsAfter(n, t, MINUTE);
  }

  /** The first tick strictly after a time, or None where the search for one gives up. */
  function Next(c: Cron, after: Time): (next: Option<Time>)
    ensures next != None ==> next.value > after
  {
    match CronSearch.TickAfter(c, MinuteOf(after))
    case Some(n) =>
      MinuteBegins(n, after);
      Some(n * MINUTE)
    case None => None
  }

  /** A tick is the beginning of a minute the expression matches. */
  predicate IsTick(c: Cron, t: Time) {
    t % MINUTE == 0 && CronSearch.Matches(c, CronSearch.At(MinuteOf(t)))
  }

  lemma NextIsATick(c: Cron, after: Time)
    requires Next(c, after) != None
    ensures IsTick(c, Next(c, after).value)
  {
    MinuteBegins(CronSearch.TickAfter(c, MinuteOf(after)).value, after);
  }

  /** A tick after a time is not before the one that is found, and where none is found it is past the horizon. */
  lemma NextIsFirstAfter(c: Cron, after: Time, t: Time)
    requires t > after && IsTick(c, t)
    ensures Next(c, after) != None ==> Next(c, after).value <= t
    ensures Next(c, after) == None ==>
      !CronSearch.Before(CronSearch.At(MinuteOf(t)), CronSearch.Limit(CronSearch.At(MinuteOf(after))))
  {
    var n := MinuteOf(t);
    CronSearch.Quotient(t, MINUTE);
    MinuteBegins(n, after);
    CronSearch.TickAfterIsFirst(c, MinuteOf(after), n);
    var tick := CronSearch.TickAfter(c, MinuteOf(after));
    if tick != None {
      CronSearch.MultipleIsOrdered(tick.value, n, MINUTE);
    }
  }

  /** The search itself, over the calendar. */
  method FindNext(c: Cron, after: Time) returns (next: Option<Time>)
    ensures next == Next(c, after)
  {
    var now := CronSearch.At(MinuteOf(after));
    var found := CronSearch.Next(c, now);
    if found == None {
      return None;
    }
    assert CronSearch.TickAfter(c, MinuteOf(after)) == Some(CronSearch.MinuteOf(found.value));
    var n: nat := CronSearch.MinuteOf(found.value);
    return Some(n * MINUTE);
  }

  /** A registration: cron is None for one that is no job, or whose expression cannot be read. */
  datatype Registration = Registration(id: Id, owner: Owner, container: string, cron: Option<Cron>)

  datatype LastRun = LastRun(startedAt: Time, exitCode: int, duration: Duration)

  datatype Job = Job(id: Id, owner: Owner, container: string, cron: Cron, next: Time, running: bool,
    last: Option<LastRun>)

  datatype Reason = Running | Busy

  datatype Skipped = Skipped(job: Job, reason: Reason)

  type Jobs = map<Id, Job>

  datatype Table = Table(maxRuns: int, maxOwner: int, jobs: Jobs, running: int, perOwner: map<Owner, int>)

  function RunsOf(perOwner: map<Owner, int>, owner: Owner): int {
    if owner in perOwner then perOwner[owner] else 0
  }

  ghost predicate Keyed(jobs: Jobs) {
    forall id <- jobs :: jobs[id].id == id
  }

  predicate IsJob(p: Registration, now: Time) {
    p.cron.Some? && Next(p.cron.value, now).Some?
  }

  /** A job held already keeps its tick, unless its expression changed, and keeps its mark and last run. */
  function Tracked(jobs: Jobs, p: Registration, now: Time): Jobs
    requires IsJob(p, now)
  {
    var cron := p.cron.value;
    var next := Next(cron, now).value;
    if p.id in jobs then
      var moved := jobs[p.id].(owner := p.owner, container := p.container);
      jobs[p.id := if moved.cron.expr != cron.expr then moved.(cron := cron, next := next) else moved]
    else
      jobs[p.id := Job(p.id, p.owner, p.container, cron, next, false, None)]
  }

  predicate Before(a: Job, b: Job) {
    a.next < b.next || (a.next == b.next && a.id < b.id)
  }

  /** Each job comes before every later one. */
  ghost predicate Sorted(ids: seq<Id>, jobs: Jobs)
    requires forall id <- ids :: id in jobs
  {
    ids == [] || (
      var init, last := ids[..|ids| - 1], ids[|ids| - 1];
      Sorted(init, jobs) && forall id <- init :: Before(jobs[id], jobs[last]))
  }

  /** Every job once, sorted by its tick and then by its id. */
  ghost predicate IsOrder(ids: seq<Id>, jobs: Jobs) {
    (forall id :: id in ids <==> id in jobs) && Sorted(ids, jobs)
  }

  /** There is one such order, so nothing due answers depends on how the map hands its keys over. */
  lemma {:induction false} OrderIsUnique(a: seq<Id>, b: seq<Id>, jobs: Jobs)
    requires IsOrder(a, jobs) && IsOrder(b, jobs)
    ensures a == b
    decreases |a|
  {
    assert a != [] ==> a[0] in jobs;
    assert b != [] ==> b[0] in jobs;
    if a != [] && b != [] {
      var last := a[|a| - 1];
      SplitLast(a);
      SplitLast(b);
      assert last in b && b[|b| - 1] in a;
      assert last == b[|b| - 1];
      DropLastIsOrder(a, jobs);
      DropLastIsOrder(b, jobs);
      OrderIsUnique(a[..|a| - 1], b[..|b| - 1], jobs - {last});
    }
  }

  /** And it is by the tick, due longest first, and of two at the same moment the lower id. */
  lemma {:induction false} OrderIsByTickAndId(ids: seq<Id>, jobs: Jobs, j: nat, k: nat)
    requires (forall id <- ids :: id in jobs) && Sorted(ids, jobs) && Keyed(jobs) && j < k < |ids|
    ensures jobs[ids[j]].next < jobs[ids[k]].next || (jobs[ids[j]].next == jobs[ids[k]].next && ids[j] < ids[k])
  {
    var init := ids[..|ids| - 1];
    if k < |init| {
      OrderIsByTickAndId(init, jobs, j, k);
    } else {
      assert init[j] in init;
    }
  }

  lemma SplitLast(a: seq<Id>)
    requires a != []
    ensures a == a[..|a| - 1] + [a[|a| - 1]]
  {
  }

  lemma DropLastIsOrder(a: seq<Id>, jobs: Jobs)
    requires a != [] && IsOrder(a, jobs)
    ensures IsOrder(a[..|a| - 1], jobs - {a[|a| - 1]})
  {
    SplitLast(a);
    SortedInSmaller(a[..|a| - 1], jobs, jobs - {a[|a| - 1]});
  }

  lemma {:induction false} SortedInSmaller(ids: seq<Id>, jobs: Jobs, fewer: Jobs)
    requires forall id <- ids :: id in jobs && id in fewer && fewer[id] == jobs[id]
    requires Sorted(ids, jobs)
    ensures Sorted(ids, fewer)
  {
    if ids != [] {
      SortedInSmaller(ids[..|ids| - 1], jobs, fewer);
    }
  }

  function NextTick(job: Job, now: Time): (t: Time)
    ensures t > now
  {
    match Next(job.cron, now)
    case Some(t) => t
    case None => now + NO_TICK_WAIT
  }

  /** What a pass hands back. */
  datatype Collected = Collected(run: seq<Job>, missed: seq<Skipped>, wait: Duration)

  datatype Pass = Pass(table: Table, found: Collected)

  predicate Full(t: Table, owner: Owner) {
    t.running >= t.maxRuns || RunsOf(t.perOwner, owner) >= t.maxOwner
  }

  predicate Granted(t: Table, job: Job, now: Time) {
    job.next <= now && !job.running && !Full(t, job.owner)
  }

  /** A job after the pass has come to it. */
  function Moved(t: Table, job: Job, now: Time): Job {
    if job.next > now then job else job.(next := NextTick(job, now), running := job.running || !Full(t, job.owner))
  }

  function Nearer(wait: Duration, left: Duration): Duration {
    if 0 < left < wait then left else wait
  }

  /** What one job adds to a pass. */
  function Visit(p: Pass, id: Id, now: Time): Pass
    requires id in p.table.jobs
  {
    var t, found := p.table, p.found;
    var job := t.jobs[id];
    var moved := Moved(t, job, now);
    var wait := Nearer(found.wait, moved.next - now);
    var jobs := t.jobs[id := moved];
    if job.next > now then
      Pass(t, found.(wait := wait))
    else if Granted(t, job, now) then
      Pass(t.(jobs := jobs, running := t.running + 1,
        perOwner := t.perOwner[job.owner := RunsOf(t.perOwner, job.owner) + 1]),
           Collected(found.run + [moved], found.missed, wait))
    else
      Pass(t.(jobs := jobs),
           Collected(found.run, found.missed + [Skipped(moved, if job.running then Running else Busy)], wait))
  }

  /** The pass of due over the first i jobs, in the order ids names them. */
  function PassTo(t: Table, ids: seq<Id>, now: Time, i: nat): (p: Pass)
    requires i <= |ids| && forall id <- ids :: id in t.jobs
    ensures p.table.jobs.Keys == t.jobs.Keys
    ensures p.table.maxRuns == t.maxRuns && p.table.maxOwner == t.maxOwner
  {
    if i == 0 then Pass(t, Collected([], [], IDLE_WAIT)) else Visit(PassTo(t, ids, now, i - 1), ids[i - 1], now)
  }

  function PassOver(t: Table, ids: seq<Id>, now: Time): Pass
    requires forall id <- ids :: id in t.jobs
  {
    PassTo(t, ids, now, |ids|)
  }

  function Finished(t: Table, id: Id, owner: Owner, run: LastRun): Table {
    var n := RunsOf(t.perOwner, owner);
    t.(jobs := if id in t.jobs then t.jobs[id := t.jobs[id].(running := false, last := Some(run))] else t.jobs,
       running := if t.running > 0 then t.running - 1 else t.running,
       perOwner := if n <= 0 then t.perOwner else if n == 1 then t.perOwner - {owner} else t.perOwner[owner := n - 1])
  }

  class Scheduler {
    const maxRuns: int
    const maxOwner: int
    var jobs: Jobs
    var running: int
    var perOwner: map<Owner, int>
    var changed: bool

    ghost function View(): Table
      reads this
    {
      Table(maxRuns, maxOwner, jobs, running, perOwner)
    }

    constructor (maxRuns: int, perOwner: int)
      ensures View() == Table(this.maxRuns, this.maxOwner, map[], 0, map[]) && !changed
      ensures this.maxRuns == (if maxRuns <= 0 then MAX_SCHEDULED_RUNS else maxRuns)
      ensures this.maxOwner == (if perOwner <= 0 then MAX_RUNS_PER_MEMBER else perOwner)
    {
      this.maxRuns := if maxRuns <= 0 then MAX_SCHEDULED_RUNS else maxRuns;
      this.maxOwner := if perOwner <= 0 then MAX_RUNS_PER_MEMBER else perOwner;
      jobs, running, this.perOwner, changed := map[], 0, map[], false;
    }

    method Wake()
      modifies this`changed
      ensures changed
    {
      if !changed {
        changed := true;
      }
    }

    method Track(p: Registration, now: Time)
      modifies this
      ensures View() == old(View()).(jobs := if IsJob(p, now) then Tracked(old(jobs), p, now) else old(jobs) - {p.id})
      ensures changed == (old(changed) || (IsJob(p, now) <==> p.id !in old(jobs)))
    {
      if p.cron.None? {
        Untrack(p.id);
        return;
      }
      var cron := p.cron.value;
      var next := FindNext(cron, now);
      if next.None? {
        Untrack(p.id);
        return;
      }
      if p.id in jobs {
        var current := jobs[p.id].(owner := p.owner, container := p.container);
        if current.cron.expr != cron.expr {
          current := current.(cron := cron, next := next.value);
        }
        jobs := jobs[p.id := current];
        return;
      }
      jobs := jobs[p.id := Job(p.id, p.owner, p.container, cron, next.value, false, None)];
      Wake();
    }

    method Untrack(id: Id)
      modifies this
      ensures View() == old(View()).(jobs := old(jobs) - {id})
      ensures changed == (old(changed) || id in old(jobs))
    {
      var tracked := id in jobs;
      jobs := jobs - {id};
      if tracked {
        Wake();
      }
    }

    /** The keys in map order, sorted by insertion. */
    method Ordered() returns (out: seq<Id>)
      requires Keyed(jobs)
      ensures IsOrder(out, jobs)
    {
      out := [];
      var ids := Enumerate(jobs);
      for i := 0 to |ids|
        invariant forall id :: id in out <==> id in ids[..i]
        invariant forall id <- out :: id in jobs
        invariant Sorted(out, jobs)
      {
        assert ids[..i + 1] == ids[..i] + [ids[i]];
        assert ids[i] in ids;
        NotSeenBefore(ids, i);
        InsertSorts(out, ids[i], jobs);
        out := Insert(out, ids[i], jobs);
      }
      assert ids[..|ids|] == ids;
    }

    /** The body of the pass for one job, over what the pass has collected so far. */
    method Consider(id: Id, now: Time, before: Collected) returns (after: Collected)
      requires id in jobs
      modifies this
      ensures Pass(View(), after) == Visit(Pass(old(View()), before), id, now)
      ensures changed == old(changed)
    {
      after := before;
      var target := jobs[id];
      if target.next > now {
        if target.next - now < after.wait {
          after := after.(wait := target.next - now);
        }
        return;
      }
      var next := FindNext(target.cron, now);
      target := target.(next := if next.None? then now + NO_TICK_WAIT else next.value);
      var left := target.next - now;
      if left > 0 && left < after.wait {
        after := after.(wait := left);
      }
      if target.running {
        after := after.(missed := after.missed + [Skipped(target, Running)]);
      } else if running >= maxRuns || RunsOf(perOwner, target.owner) >= maxOwner {
        after := after.(missed := after.missed + [Skipped(target, Busy)]);
      } else {
        target := target.(running := true);
        running := running + 1;
        perOwner := perOwner[target.owner := RunsOf(perOwner, target.owner) + 1];
        after := after.(run := after.run + [target]);
      }
      jobs := jobs[id := target];
    }

    method Due(now: Time) returns (found: Collected, ghost order: seq<Id>)
      requires Keyed(jobs)
      modifies this
      ensures IsOrder(order, old(jobs))
      ensures Pass(View(), found) == PassOver(old(View()), order, now)
      ensures changed == old(changed)
    {
      found := Collected([], [], IDLE_WAIT);
      ghost var was := View();
      var ids := Ordered();
      order := ids;
      for i := 0 to |ids|
        invariant changed == old(changed)
        invariant Pass(View(), found) == PassTo(was, ids, now, i)
      {
        found := Consider(ids[i], now, found);
      }
    }

    method Finish(id: Id, owner: Owner, run: LastRun) returns (tracked: bool)
      modifies this
      ensures View() == Finished(old(View()), id, owner, run)
      ensures tracked == (id in old(jobs))
      ensures changed == (old(changed) || tracked)
    {
      tracked := id in jobs;
      if tracked {
        jobs := jobs[id := jobs[id].(running := false, last := Some(run))];
      }
      if running > 0 {
        running := running - 1;
      }
      if RunsOf(perOwner, owner) > 0 {
        perOwner := perOwner[owner := perOwner[owner] - 1];
        if perOwner[owner] == 0 {
          perOwner := perOwner - {owner};
        }
      }
      if tracked {
        Wake();
      }
    }
  }

  /** One job into its place among those that are sorted already. */
  function Insert(ids: seq<Id>, id: Id, jobs: Jobs): (out: seq<Id>)
    requires id in jobs && forall other <- ids :: other in jobs
    ensures forall other :: other in out <==> other in ids || other == id
  {
    if ids == [] || Before(jobs[ids[|ids| - 1]], jobs[id]) then ids + [id]
    else
      SplitLast(ids);
      Insert(ids[..|ids| - 1], id, jobs) + [ids[|ids| - 1]]
  }

  lemma {:induction false} InsertSorts(ids: seq<Id>, id: Id, jobs: Jobs)
    requires id in jobs && id !in ids && (forall other <- ids :: other in jobs) && Keyed(jobs) && Sorted(ids, jobs)
    ensures Sorted(Insert(ids, id, jobs), jobs)
  {
    if ids != [] {
      var init, last := ids[..|ids| - 1], ids[|ids| - 1];
      SplitLast(ids);
      if Before(jobs[last], jobs[id]) {
        assert (ids + [id])[..|ids|] == ids;
      } else {
        InsertSorts(init, id, jobs);
        var out := Insert(init, id, jobs);
        assert (out + [last])[..|out|] == out;
      }
    }
  }

  // What a pass answers, whatever the table.

  ghost predicate Distinct(ids: seq<Id>) {
    forall j, k | 0 <= j < k < |ids| :: ids[j] != ids[k]
  }

  lemma {:induction false} SortedIsDistinct(ids: seq<Id>, jobs: Jobs)
    requires (forall id <- ids :: id in jobs) && Sorted(ids, jobs)
    ensures Distinct(ids)
  {
    if ids != [] {
      var init := ids[..|ids| - 1];
      SortedIsDistinct(init, jobs);
      forall j, k | 0 <= j < k < |ids| ensures ids[j] != ids[k] {
        assert ids[j] == init[j] && ids[j] in init;
        assert k < |init| ==> ids[k] == init[k];
      }
    }
  }

  /** A tick that was taken moves forward, past now and past where it was. One that was not is left alone. */
  lemma {:induction false} NextOnlyAdvances(t: Table, ids: seq<Id>, now: Time, i: nat, k: nat)
    requires (forall id <- ids :: id in t.jobs) && Distinct(ids) && i <= |ids| && k < |ids|
    ensures var job := t.jobs[ids[k]]; var after := PassTo(t, ids, now, i).table.jobs[ids[k]];
      if k >= i || job.next > now then after == job
      else
        && after.next == NextTick(job, now) && after.next > now >= job.next
        && (job.running ==> after.running)
        && after == job.(next := after.next, running := after.running)
  {
    if i > 0 {
      NextOnlyAdvances(t, ids, now, i - 1, k);
    }
  }

  function RunsFor(run: seq<Job>, id: Id): nat {
    if run == [] then 0 else RunsFor(run[..|run| - 1], id) + if run[|run| - 1].id == id then 1 else 0
  }

  function RunsOwnedBy(run: seq<Job>, owner: Owner): nat {
    if run == [] then 0 else RunsOwnedBy(run[..|run| - 1], owner) + if run[|run| - 1].owner == owner then 1 else 0
  }

  function SkipsFor(missed: seq<Skipped>, id: Id, reason: Reason): nat {
    if missed == [] then 0
    else
      var last := missed[|missed| - 1];
      SkipsFor(missed[..|missed| - 1], id, reason) + if last.job.id == id && last.reason == reason then 1 else 0
  }

  /** One visit hands its own job over at most once, and says nothing about another. */
  lemma VisitHandsOver(p: Pass, id: Id, now: Time, other: Id)
    requires id in p.table.jobs && p.table.jobs[id].id == id
    ensures var q := Visit(p, id, now); var job := p.table.jobs[id]; var mine := if id == other then 1 else 0;
      && RunsFor(q.found.run, other) == RunsFor(p.found.run, other) + (if Granted(p.table, job, now) then mine else 0)
      && SkipsFor(q.found.missed, other, Running) == SkipsFor(p.found.missed, other, Running)
           + (if job.next <= now && job.running then mine else 0)
      && SkipsFor(q.found.missed, other, Busy) == SkipsFor(p.found.missed, other, Busy)
           + (if job.next <= now && !job.running && Full(p.table, job.owner) then mine else 0)
  {
    var q := Visit(p, id, now);
    if q.found.run != p.found.run {
      assert q.found.run[..|p.found.run|] == p.found.run;
    }
    if q.found.missed != p.found.missed {
      assert q.found.missed[..|p.found.missed|] == p.found.missed;
    }
  }

  /** What a pass has answered about a job so far: one run or skip if its tick was taken, nothing otherwise. */
  ghost predicate Answered(p: Pass, job: Job, taken: bool) {
    && job.id in p.table.jobs
    && RunsFor(p.found.run, job.id) == (if p.table.jobs[job.id].running && !job.running then 1 else 0)
    && SkipsFor(p.found.missed, job.id, Running) == (if taken && job.running then 1 else 0)
    && RunsFor(p.found.run, job.id) + SkipsFor(p.found.missed, job.id, Running)
         + SkipsFor(p.found.missed, job.id, Busy) == (if taken then 1 else 0)
  }

  lemma OwnVisitAnswers(p: Pass, job: Job, now: Time)
    requires Answered(p, job, false) && p.table.jobs[job.id] == job
    ensures Answered(Visit(p, job.id, now), job, job.next <= now)
  {
    VisitHandsOver(p, job.id, now, job.id);
  }

  lemma OtherVisitAnswersNothing(p: Pass, id: Id, now: Time, job: Job, taken: bool)
    requires Answered(p, job, taken) && id in p.table.jobs && p.table.jobs[id].id == id != job.id
    ensures Answered(Visit(p, id, now), job, taken)
  {
    VisitHandsOver(p, id, now, job.id);
  }

  lemma NextVisitAnswers(p: Pass, id: Id, now: Time, job: Job, taken: bool)
    requires Answered(p, job, taken) && id in p.table.jobs && p.table.jobs[id].id == id
    requires id == job.id ==> !taken && p.table.jobs[id] == job
    ensures Answered(Visit(p, id, now), job, taken || (id == job.id && job.next <= now))
  {
    if id == job.id {
      OwnVisitAnswers(p, job, now);
    } else {
      OtherVisitAnswersNothing(p, id, now, job, taken);
    }
  }

  /** Every due job is run or skipped, once, and nothing else is; the reason is Running where it was. */
  lemma {:induction false} DueSplitsExactly(t: Table, ids: seq<Id>, now: Time, i: nat, k: nat)
    requires (forall id <- ids :: id in t.jobs) && Distinct(ids) && Keyed(t.jobs) && i <= |ids| && k < |ids|
    ensures Answered(PassTo(t, ids, now, i), t.jobs[ids[k]], k < i && t.jobs[ids[k]].next <= now)
  {
    if i > 0 {
      DueSplitsExactly(t, ids, now, i - 1, k);
      NextOnlyAdvances(t, ids, now, i - 1, i - 1);
      var taken := k < i - 1 && t.jobs[ids[k]].next <= now;
      NextVisitAnswers(PassTo(t, ids, now, i - 1), ids[i - 1], now, t.jobs[ids[k]], taken);
    }
  }

  /** b is a later moment of the same pass: the counters only grow. */
  ghost predicate Grown(a: Table, b: Table) {
    && a.maxRuns == b.maxRuns && a.maxOwner == b.maxOwner
    && a.running <= b.running
    && forall o :: RunsOf(a.perOwner, o) <= RunsOf(b.perOwner, o)
  }

  lemma {:induction false} PassOnlyGrows(t: Table, ids: seq<Id>, now: Time, i: nat, j: nat)
    requires (forall id <- ids :: id in t.jobs) && i <= j <= |ids|
    ensures Grown(PassTo(t, ids, now, i).table, PassTo(t, ids, now, j).table)
    decreases j - i
  {
    if i < j {
      PassOnlyGrows(t, ids, now, i, j - 1);
    }
  }

  /**
   The pass is greedy in the order: a tick is skipped as busy only where a cap stands full from then
   on, and no later job of the same member is run past it.
   */
  lemma GreedyInOrder(t: Table, ids: seq<Id>, now: Time, i: nat, j: nat)
    requires (forall id <- ids :: id in t.jobs) && i < j < |ids|
    requires var a := PassTo(t, ids, now, i).table; Full(a, a.jobs[ids[i]].owner)
    ensures var a, b := PassTo(t, ids, now, i).table, PassTo(t, ids, now, j).table;
      && Full(PassOver(t, ids, now).table, a.jobs[ids[i]].owner)
      && (Granted(b, b.jobs[ids[j]], now) ==> b.jobs[ids[j]].owner != a.jobs[ids[i]].owner)
  {
    PassOnlyGrows(t, ids, now, i, j);
    PassOnlyGrows(t, ids, now, i, |ids|);
  }

  /**
   A job that is due and not marked is run exactly where, when its turn comes, both counters stand below
   their caps, and is skipped as busy exactly where one does not.
   */
  lemma RunExactlyBelowTheCaps(t: Table, ids: seq<Id>, now: Time, i: nat)
    requires (forall id <- ids :: id in t.jobs) && Distinct(ids) && Keyed(t.jobs) && i < |ids|
    requires t.jobs[ids[i]].next <= now && !t.jobs[ids[i]].running
    ensures var p, q, job := PassTo(t, ids, now, i), PassTo(t, ids, now, i + 1), t.jobs[ids[i]];
      if p.table.running < t.maxRuns && RunsOf(p.table.perOwner, job.owner) < t.maxOwner then
        && |q.found.run| == |p.found.run| + 1 && q.found.run[|p.found.run|] == q.table.jobs[job.id]
        && q.table.jobs[job.id].running && q.found.missed == p.found.missed
      else
        && q.found.run == p.found.run && !q.table.jobs[job.id].running
        && q.found.missed == p.found.missed + [Skipped(q.table.jobs[job.id], Busy)]
  {
    NextOnlyAdvances(t, ids, now, i, i);
  }

  /** So a tick is skipped as busy only where the host, or its member, is at the cap once the pass is over. */
  lemma BusyMeansACapIsFull(t: Table, ids: seq<Id>, now: Time, k: nat)
    requires (forall id <- ids :: id in t.jobs) && Distinct(ids) && Keyed(t.jobs) && k < |ids|
    requires SkipsFor(PassOver(t, ids, now).found.missed, ids[k], Busy) > 0
    ensures var after, job := PassOver(t, ids, now).table, t.jobs[ids[k]];
      && job.next <= now && !job.running && !after.jobs[job.id].running
      && (after.running >= t.maxRuns || RunsOf(after.perOwner, job.owner) >= t.maxOwner)
  {
    var job := t.jobs[ids[k]];
    DueSplitsExactly(t, ids, now, |ids|, k);
    NextOnlyAdvances(t, ids, now, |ids|, k);
    RunExactlyBelowTheCaps(t, ids, now, k);
    PassOnlyGrows(t, ids, now, k, |ids|);
    PassOnlyMarks(t, ids, now, k + 1, |ids|, k);
  }

  /** What a pass has marked stays marked to its end. */
  lemma {:induction false} PassOnlyMarks(t: Table, ids: seq<Id>, now: Time, i: nat, j: nat, k: nat)
    requires (forall id <- ids :: id in t.jobs) && i <= j <= |ids| && k < |ids|
    ensures PassTo(t, ids, now, i).table.jobs[ids[k]].running ==> PassTo(t, ids, now, j).table.jobs[ids[k]].running
    decreases j - i
  {
    if i < j {
      PassOnlyMarks(t, ids, now, i, j - 1, k);
    }
  }

  ghost predicate Capped(t: Table) {
    t.running <= t.maxRuns && forall o :: RunsOf(t.perOwner, o) <= t.maxOwner
  }

  lemma VisitCounts(p: Pass, id: Id, now: Time)
    requires id in p.table.jobs && Capped(p.table)
    ensures var q := Visit(p, id, now);
      && Capped(q.table)
      && q.table.running - |q.found.run| == p.table.running - |p.found.run|
      && forall o :: RunsOf(q.table.perOwner, o) - RunsOwnedBy(q.found.run, o) ==
           RunsOf(p.table.perOwner, o) - RunsOwnedBy(p.found.run, o)
  {
    var q := Visit(p, id, now);
    var job := p.table.jobs[id];
    if Granted(p.table, job, now) {
      assert q.found.run[..|p.found.run|] == p.found.run;
    }
    forall o
      ensures RunsOwnedBy(q.found.run, o) == RunsOwnedBy(p.found.run, o)
        + if Granted(p.table, job, now) && o == job.owner then 1 else 0
      ensures RunsOf(q.table.perOwner, o) == RunsOf(p.table.perOwner, o)
        + if Granted(p.table, job, now) && o == job.owner then 1 else 0
    {
    }
  }

  /** What a pass starts is what the counters grow by, so the caps hold after it if they did before. */
  lemma {:induction false} PassCounts(t: Table, ids: seq<Id>, now: Time, i: nat)
    requires (forall id <- ids :: id in t.jobs) && i <= |ids| && Capped(t)
    ensures var p := PassTo(t, ids, now, i);
      && Capped(p.table)
      && p.table.running == t.running + |p.found.run|
      && forall o :: RunsOf(p.table.perOwner, o) == RunsOf(t.perOwner, o) + RunsOwnedBy(p.found.run, o)
  {
    if i > 0 {
      PassCounts(t, ids, now, i - 1);
      VisitCounts(PassTo(t, ids, now, i - 1), ids[i - 1], now);
    }
  }

  /** wait is the time to the nearest tick of the first i jobs, or IDLE_WAIT. */
  ghost predicate IsNearest(jobs: Jobs, ids: seq<Id>, i: nat, now: Time, wait: Duration)
    requires i <= |ids| && forall id <- ids :: id in jobs
  {
    && 0 < wait <= IDLE_WAIT
    && (forall k | 0 <= k < i :: wait <= jobs[ids[k]].next - now)
    && (wait == IDLE_WAIT || exists k :: 0 <= k < i && wait == jobs[ids[k]].next - now)
  }

  lemma VisitKeepsNearest(p: Pass, ids: seq<Id>, i: nat, now: Time)
    requires 0 < i <= |ids| && Distinct(ids) && forall id <- ids :: id in p.table.jobs
    requires IsNearest(p.table.jobs, ids, i - 1, now, p.found.wait)
    ensures Visit(p, ids[i - 1], now).table.jobs.Keys == p.table.jobs.Keys
    ensures var q := Visit(p, ids[i - 1], now); IsNearest(q.table.jobs, ids, i, now, q.found.wait)
  {
    var q := Visit(p, ids[i - 1], now);
    assert forall k | 0 <= k < i - 1 :: q.table.jobs[ids[k]] == p.table.jobs[ids[k]];
    if q.found.wait == p.found.wait != IDLE_WAIT {
      var k :| 0 <= k < i - 1 && p.found.wait == p.table.jobs[ids[k]].next - now;
      assert q.found.wait == q.table.jobs[ids[k]].next - now;
    } else if q.found.wait != p.found.wait {
      assert q.found.wait == q.table.jobs[ids[i - 1]].next - now;
    }
  }

  /** The loop is told to wait until the nearest tick, or IDLE_WAIT, and never not at all. */
  lemma {:induction false} WaitIsNearestTick(t: Table, ids: seq<Id>, now: Time, i: nat)
    requires (forall id <- ids :: id in t.jobs) && Distinct(ids) && i <= |ids|
    ensures var p := PassTo(t, ids, now, i); IsNearest(p.table.jobs, ids, i, now, p.found.wait)
  {
    if i > 0 {
      WaitIsNearestTick(t, ids, now, i - 1);
      VisitKeepsNearest(PassTo(t, ids, now, i - 1), ids, i, now);
    }
  }

  // The loop, the runs in flight, and every interleaving of the calls.

  datatype Loop = Awake | Asleep(deadline: int)

  /** A container this host started: which job, and the member it was charged to. */
  datatype Flight = Flight(id: Id, owner: Owner)

  /** waking counts the callers that have not sent their wake-up yet. */
  datatype State = State(
    table: Table, changed: bool, waking: nat, loop: Loop, lookedAt: Time, flights: seq<Flight>)

  datatype Event =
    | Track(p: Registration, now: Time)
    | Untrack(id: Id)
    | End(i: nat, run: LastRun)
    | SendWake
    | TakeWake
    | TimerFires(now: Time)
    | Look(now: Time, order: seq<Id>)

  function Start(maxRuns: int, maxOwner: int): State {
    State(Table(maxRuns, maxOwner, map[], 0, map[]), false, 0, Awake, 0, [])
  }

  function InFlight(flights: seq<Flight>, id: Id): nat {
    if flights == [] then 0
    else InFlight(flights[..|flights| - 1], id) + if flights[|flights| - 1].id == id then 1 else 0
  }

  function OwnedInFlight(flights: seq<Flight>, owner: Owner): nat {
    if flights == [] then 0
    else OwnedInFlight(flights[..|flights| - 1], owner) + if flights[|flights| - 1].owner == owner then 1 else 0
  }

  ghost predicate Enabled(s: State, e: Event) {
    match e
    case Track(p, _) => p.cron.Some? ==> CronSearch.Parsed(p.cron.value)
    case Untrack(_) => true
    case End(i, _) => i < |s.flights|
    case SendWake => s.waking > 0
    case TakeWake => s.loop.Asleep? && s.changed
    case TimerFires(now) => s.loop.Asleep? && s.loop.deadline <= now
    case Look(now, order) => s.loop.Awake? && IsOrder(order, s.table.jobs)
  }

  function Dropped(s: State, id: Id): State {
    if id !in s.table.jobs then s
    else s.(table := s.table.(jobs := s.table.jobs - {id}), waking := s.waking + 1)
  }

  function FlightsOf(run: seq<Job>): seq<Flight> {
    if run == [] then [] else FlightsOf(run[..|run| - 1]) + [Flight(run[|run| - 1].id, run[|run| - 1].owner)]
  }

  ghost function Apply(s: State, e: Event): State
    requires Enabled(s, e)
  {
    match e
    case Track(p, now) =>
      if !IsJob(p, now) then Dropped(s, p.id)
      else
        var jobs := Tracked(s.table.jobs, p, now);
        s.(table := s.table.(jobs := jobs),
           waking := if p.id in s.table.jobs then s.waking else s.waking + 1)
    case Untrack(id) => Dropped(s, id)
    case End(i, run) =>
      var f, flights := s.flights[i], RemoveAt(s.flights, i);
      s.(table := Finished(s.table, f.id, f.owner, run), flights := flights,
         waking := if f.id in s.table.jobs then s.waking + 1 else s.waking)
    case SendWake => s.(waking := s.waking - 1, changed := true)
    case TakeWake => s.(changed := false, loop := Awake)
    case TimerFires(_) => s.(loop := Awake)
    case Look(now, order) =>
      var p := PassOver(s.table, order, now);
      s.(table := p.table, loop := Asleep(now + p.found.wait), lookedAt := now,
         flights := s.flights + FlightsOf(p.found.run))
  }

  ghost function Run(maxRuns: int, maxOwner: int, es: seq<Event>): Option<State> {
    if es == [] then Some(Start(maxRuns, maxOwner))
    else
      match Run(maxRuns, maxOwner, es[..|es| - 1])
      case None => None
      case Some(s) => if Enabled(s, es[|es| - 1]) then Some(Apply(s, es[|es| - 1])) else None
  }

  /** The counters are the runs in flight, of registered jobs or not, and stand within their caps. */
  ghost predicate CountInv(s: State) {
    && Capped(s.table)
    && s.table.running == |s.flights|
    && (forall o :: RunsOf(s.table.perOwner, o) == OwnedInFlight(s.flights, o))
    && (forall o <- s.table.perOwner :: s.table.perOwner[o] > 0)
  }

  predicate Marked(t: Table, id: Id) {
    id in t.jobs && t.jobs[id].running
  }

  /** A job that is marked has a run in flight. */
  ghost predicate FlightInv(s: State) {
    && Keyed(s.table.jobs)
    && forall id | Marked(s.table, id) :: InFlight(s.flights, id) > 0
  }

  /** The runs of a job that its entry does not show: it was dropped under them. */
  function Adrift(s: State, id: Id): int {
    InFlight(s.flights, id) - if Marked(s.table, id) then 1 else 0
  }

  /** Nothing is to wake the loop but the time. */
  predicate Sleeps(s: State) {
    s.loop.Asleep? && !s.changed && s.waking == 0
  }

  /** The loop looks again before every tick. */
  ghost predicate Covers(s: State) {
    s.loop.Asleep? && forall id <- s.table.jobs :: s.loop.deadline <= s.table.jobs[id].next
  }

  ghost predicate WakeInv(s: State) {
    s.loop.Asleep? ==> s.loop.deadline <= s.lookedAt + IDLE_WAIT
  }

  lemma {:induction false} FlightsConcat(a: seq<Flight>, b: seq<Flight>)
    ensures forall id :: InFlight(a + b, id) == InFlight(a, id) + InFlight(b, id)
    ensures forall o :: OwnedInFlight(a + b, o) == OwnedInFlight(a, o) + OwnedInFlight(b, o)
    decreases |b|
  {
    if b == [] {
      assert a + b == a;
    } else {
      assert (a + b)[..|a + b| - 1] == a + b[..|b| - 1];
      FlightsConcat(a, b[..|b| - 1]);
    }
  }

  lemma FlightRemoved(flights: seq<Flight>, i: nat)
    requires i < |flights|
    ensures forall id ::
      InFlight(flights, id) == InFlight(RemoveAt(flights, i), id) + if flights[i].id == id then 1 else 0
    ensures forall o ::
      OwnedInFlight(flights, o) == OwnedInFlight(RemoveAt(flights, i), o) + if flights[i].owner == o then 1 else 0
  {
    var one := [flights[i]];
    assert one[..0] == [];
    assert flights == (flights[..i] + one) + flights[i + 1..];
    FlightsConcat(flights[..i] + one, flights[i + 1..]);
    FlightsConcat(flights[..i], one);
    FlightsConcat(flights[..i], flights[i + 1..]);
  }

  lemma {:induction false} FlightsOfCounts(run: seq<Job>)
    ensures |FlightsOf(run)| == |run|
    ensures forall id :: InFlight(FlightsOf(run), id) == RunsFor(run, id)
    ensures forall o :: OwnedInFlight(FlightsOf(run), o) == RunsOwnedBy(run, o)
  {
    if run != [] {
      FlightsOfCounts(run[..|run| - 1]);
      var init := FlightsOf(run[..|run| - 1]);
      assert FlightsOf(run)[..|init|] == init;
    }
  }

  lemma {:induction false} PassRunsOnlyJobs(t: Table, ids: seq<Id>, now: Time, i: nat, id: Id)
    requires (forall other <- ids :: other in t.jobs) && i <= |ids| && Keyed(t.jobs) && id !in t.jobs
    ensures Keyed(PassTo(t, ids, now, i).table.jobs) && RunsFor(PassTo(t, ids, now, i).found.run, id) == 0
  {
    if i > 0 {
      PassRunsOnlyJobs(t, ids, now, i - 1, id);
      VisitHandsOver(PassTo(t, ids, now, i - 1), ids[i - 1], now, id);
    }
  }

  lemma {:induction false} PassKeepsKeys(t: Table, ids: seq<Id>, now: Time, i: nat)
    requires (forall id <- ids :: id in t.jobs) && i <= |ids| && Keyed(t.jobs)
    requires forall o <- t.perOwner :: t.perOwner[o] > 0
    ensures Keyed(PassTo(t, ids, now, i).table.jobs)
    ensures forall o <- PassTo(t, ids, now, i).table.perOwner :: PassTo(t, ids, now, i).table.perOwner[o] > 0
  {
    if i > 0 {
      PassKeepsKeys(t, ids, now, i - 1);
    }
  }

  lemma LookKeepsCountInv(s: State, now: Time, order: seq<Id>)
    requires CountInv(s) && FlightInv(s) && Enabled(s, Look(now, order))
    ensures CountInv(Apply(s, Look(now, order)))
  {
    var p := PassOver(s.table, order, now);
    PassCounts(s.table, order, now, |order|);
    PassKeepsKeys(s.table, order, now, |order|);
    FlightsOfCounts(p.found.run);
    FlightsConcat(s.flights, FlightsOf(p.found.run));
  }

  /** A look starts a run of a job exactly where it marks it, and takes no mark away. */
  lemma LookStarts(s: State, now: Time, order: seq<Id>, id: Id)
    requires CountInv(s) && FlightInv(s) && Enabled(s, Look(now, order))
    ensures var s' := Apply(s, Look(now, order));
      && Adrift(s', id) == Adrift(s, id)
      && (Marked(s.table, id) ==> Marked(s'.table, id))
  {
    var p := PassOver(s.table, order, now);
    SortedIsDistinct(order, s.table.jobs);
    FlightsOfCounts(p.found.run);
    FlightsConcat(s.flights, FlightsOf(p.found.run));
    if id in s.table.jobs {
      var k :| 0 <= k < |order| && order[k] == id;
      DueSplitsExactly(s.table, order, now, |order|, k);
      NextOnlyAdvances(s.table, order, now, |order|, k);
    } else {
      PassRunsOnlyJobs(s.table, order, now, |order|, id);
    }
  }

  lemma LookKeepsFlightInv(s: State, now: Time, order: seq<Id>)
    requires CountInv(s) && FlightInv(s) && Enabled(s, Look(now, order))
    ensures FlightInv(Apply(s, Look(now, order)))
  {
    var s' := Apply(s, Look(now, order));
    PassKeepsKeys(s.table, order, now, |order|);
    forall id | Marked(s'.table, id)
      ensures InFlight(s'.flights, id) > 0
    {
      LookStarts(s, now, order, id);
    }
  }

  lemma LookCovers(s: State, now: Time, order: seq<Id>)
    requires Enabled(s, Look(now, order))
    ensures var s' := Apply(s, Look(now, order)); Covers(s') && WakeInv(s')
  {
    SortedIsDistinct(order, s.table.jobs);
    WaitIsNearestTick(s.table, order, now, |order|);
    var p := PassOver(s.table, order, now);
    forall id <- p.table.jobs ensures p.found.wait <= p.table.jobs[id].next - now {
      var k :| 0 <= k < |order| && order[k] == id;
    }
  }

  lemma EndKeepsInv(s: State, i: nat, run: LastRun)
    requires CountInv(s) && FlightInv(s) && i < |s.flights|
    ensures CountInv(Apply(s, End(i, run))) && FlightInv(Apply(s, End(i, run)))
  {
    FlightRemoved(s.flights, i);
    var s' := Apply(s, End(i, run));
    forall o
      ensures RunsOf(s'.table.perOwner, o) == OwnedInFlight(s'.flights, o)
    {
      assert RunsOf(s.table.perOwner, o) == OwnedInFlight(s.flights, o);
    }
  }

  lemma CallsKeepCounts(s: State, e: Event)
    requires CountInv(s) && Enabled(s, e) && !e.Look? && !e.End?
    ensures CountInv(Apply(s, e))
  {
    hide Next, CronSearch.Parsed;
  }

  lemma CallsKeepFlights(s: State, e: Event)
    requires FlightInv(s) && CountInv(s) && Enabled(s, e) && !e.Look? && !e.End?
    ensures FlightInv(Apply(s, e))
  {
    hide Next;
    match e
    case Track(p, now) =>
    case Untrack(id) =>
    case SendWake =>
    case TakeWake =>
    case TimerFires(now) =>
  }

  lemma CallsKeepWakes(s: State, e: Event)
    requires WakeInv(s) && Enabled(s, e) && !e.Look?
    ensures WakeInv(Apply(s, e))
  {
    hide Next, CronSearch.Parsed;
  }

  lemma StepKeepsInv(s: State, e: Event)
    requires CountInv(s) && FlightInv(s) && WakeInv(s) && Enabled(s, e)
    ensures var s' := Apply(s, e); CountInv(s') && FlightInv(s') && WakeInv(s')
  {
    match e {
      case Look(now, order) =>
        LookKeepsCountInv(s, now, order);
        LookKeepsFlightInv(s, now, order);
        LookCovers(s, now, order);
      case End(i, run) =>
        EndKeepsInv(s, i, run);
        CallsKeepWakes(s, e);
      case _ =>
        CallsKeepCounts(s, e);
        CallsKeepFlights(s, e);
        CallsKeepWakes(s, e);
    }
  }

  lemma {:induction false} RunKeepsInv(maxRuns: int, maxOwner: int, es: seq<Event>)
    requires maxRuns >= 0 && maxOwner >= 0 && Run(maxRuns, maxOwner, es).Some?
    ensures var s := Run(maxRuns, maxOwner, es).value;
      CountInv(s) && FlightInv(s) && WakeInv(s) && s.table.maxRuns == maxRuns && s.table.maxOwner == maxOwner
  {
    if es != [] {
      RunKeepsInv(maxRuns, maxOwner, es[..|es| - 1]);
      StepKeepsInv(Run(maxRuns, maxOwner, es[..|es| - 1]).value, es[|es| - 1]);
    }
  }

  /** Over any interleaving, the counters are exactly the runs in flight, and never pass their caps. */
  lemma CountersAreTheRunsInFlight(maxRuns: int, maxOwner: int, es: seq<Event>, owner: Owner)
    requires maxRuns >= 0 && maxOwner >= 0 && Run(maxRuns, maxOwner, es).Some?
    ensures var s := Run(maxRuns, maxOwner, es).value;
      && s.table.running == |s.flights| <= maxRuns
      && RunsOf(s.table.perOwner, owner) == OwnedInFlight(s.flights, owner) <= maxOwner
      && (owner in s.table.perOwner <==> OwnedInFlight(s.flights, owner) > 0)
  {
    RunKeepsInv(maxRuns, maxOwner, es);
    assert owner in Run(maxRuns, maxOwner, es).value.table.perOwner ==>
      Run(maxRuns, maxOwner, es).value.table.perOwner[owner] > 0;
  }

  /** The job is dropped while it is marked, so that the run goes on without it. */
  predicate DropsUnder(s: State, e: Event, id: Id) {
    && Marked(s.table, id)
    && (e == Untrack(id) || (e.Track? && e.p.id == id && !IsJob(e.p, e.now)))
  }

  /** A run ends and finds no mark of its job to take away. */
  predicate EndsAdrift(s: State, e: Event, id: Id) {
    e.End? && e.i < |s.flights| && s.flights[e.i].id == id && !Marked(s.table, id)
  }

  lemma CallDrifts(s: State, e: Event, id: Id)
    requires Enabled(s, e) && !e.Look? && !e.End?
    ensures Adrift(Apply(s, e), id) == Adrift(s, id) + if DropsUnder(s, e, id) then 1 else 0
  {
    hide Next, InFlight, CronSearch.Parsed;
  }

  lemma EndDrifts(s: State, i: nat, run: LastRun, id: Id)
    requires Enabled(s, End(i, run))
    ensures Adrift(Apply(s, End(i, run)), id) == Adrift(s, id) - if EndsAdrift(s, End(i, run), id) then 1 else 0
  {
    FlightRemoved(s.flights, i);
    hide InFlight, OwnedInFlight;
  }

  lemma StepDrifts(s: State, e: Event, id: Id)
    requires CountInv(s) && FlightInv(s) && Enabled(s, e)
    ensures Adrift(Apply(s, e), id) ==
      Adrift(s, id) + (if DropsUnder(s, e, id) then 1 else 0) - if EndsAdrift(s, e, id) then 1 else 0
  {
    hide Apply, Adrift, CountInv, FlightInv, IsJob;
    match e
    case Look(now, order) => LookStarts(s, now, order, id);
    case End(i, run) => EndDrifts(s, i, run, id);
    case _ => CallDrifts(s, e, id);
  }

  /** How often a job was dropped under a run, less the runs that ended without a mark of it. */
  ghost function Drift(maxRuns: int, maxOwner: int, es: seq<Event>, id: Id): int
    requires Run(maxRuns, maxOwner, es).Some?
  {
    if es == [] then 0
    else
      var s, e := Run(maxRuns, maxOwner, es[..|es| - 1]).value, es[|es| - 1];
      Drift(maxRuns, maxOwner, es[..|es| - 1], id)
        + (if DropsUnder(s, e, id) then 1 else 0) - (if EndsAdrift(s, e, id) then 1 else 0)
  }

  /**
   The runs of a job in flight are the one its mark stands for and those it was dropped under. So there
   is at most one exactly where it was never dropped under one that still goes on, or under one alone
   and no other was started since.
   */
  lemma {:induction false} RunsInFlightOfAJob(maxRuns: int, maxOwner: int, es: seq<Event>, id: Id)
    requires maxRuns >= 0 && maxOwner >= 0 && Run(maxRuns, maxOwner, es).Some?
    ensures var s := Run(maxRuns, maxOwner, es).value; var drift := Drift(maxRuns, maxOwner, es, id);
      && drift >= 0
      && InFlight(s.flights, id) == drift + (if Marked(s.table, id) then 1 else 0)
      && (InFlight(s.flights, id) <= 1 <==> drift == 0 || (drift == 1 && !Marked(s.table, id)))
  {
    RunKeepsInv(maxRuns, maxOwner, es);
    if es != [] {
      var init := es[..|es| - 1];
      RunsInFlightOfAJob(maxRuns, maxOwner, init, id);
      RunKeepsInv(maxRuns, maxOwner, init);
      StepDrifts(Run(maxRuns, maxOwner, init).value, es[|es| - 1], id);
    }
  }

  /** A run is started beside another of its job exactly by a look that grants it while one is adrift. */
  lemma SecondRunStarts(maxRuns: int, maxOwner: int, es: seq<Event>, e: Event, id: Id)
    requires maxRuns >= 0 && maxOwner >= 0 && Run(maxRuns, maxOwner, es).Some?
    requires Enabled(Run(maxRuns, maxOwner, es).value, e) && InFlight(Run(maxRuns, maxOwner, es).value.flights, id) == 1
    ensures var s := Run(maxRuns, maxOwner, es).value;
      InFlight(Apply(s, e).flights, id) == 2 <==>
        && e.Look? && Drift(maxRuns, maxOwner, es, id) == 1
        && !Marked(s.table, id) && Marked(Apply(s, e).table, id)
  {
    hide Next, CronSearch.Parsed;
    RunKeepsInv(maxRuns, maxOwner, es);
    RunsInFlightOfAJob(maxRuns, maxOwner, es, id);
    var s := Run(maxRuns, maxOwner, es).value;
    StepDrifts(s, e, id);
    match e
    case End(i, _) => FlightRemoved(s.flights, i);
    case _ =>
  }

  /**
   A registration is taken over as it is; the mark and the last run stay, and the tick unless the
   expression changed.
   */
  lemma TrackTakesTheRegistration(jobs: Jobs, p: Registration, now: Time)
    requires IsJob(p, now)
    ensures var after, next := Tracked(jobs, p, now), Next(p.cron.value, now).value;
      && after.Keys == jobs.Keys + {p.id} && (forall id <- jobs | id != p.id :: after[id] == jobs[id])
      && after[p.id].owner == p.owner && after[p.id].container == p.container
      && after[p.id].cron.expr == p.cron.value.expr
      && (p.id in jobs ==>
            && after[p.id].running == jobs[p.id].running && after[p.id].last == jobs[p.id].last
            && after[p.id].next == if jobs[p.id].cron.expr == p.cron.value.expr then jobs[p.id].next else next)
      && (p.id !in jobs ==> !after[p.id].running && after[p.id].last == None && after[p.id].next == next)
  {
    hide Next;
  }

  /** Any of a common year, or a leap day within the horizon. */
  ghost predicate NamesADate(c: Cron, now: Time) {
    || !CronSearch.NoCommonDate(c)
    || (CronSearch.OnlyLeapDays(c) && CronSearch.LeapDayComes(c, CronSearch.At(MinuteOf(now))))
  }

  /**
   A registration is a job exactly where it has an expression that can be read and names a date the search
   reaches.
   */
  lemma IsAJobExactly(p: Registration, now: Time)
    requires p.cron.Some? ==> CronSearch.Parsed(p.cron.value)
    ensures IsJob(p, now) <==> p.cron.Some? && NamesADate(p.cron.value, now)
  {
    hide CronSearch.NoCommonDate, CronSearch.OnlyLeapDays, CronSearch.LeapDayComes, CronSearch.Parsed;
    if p.cron.Some? {
      CronSearch.FindsNothing(p.cron.value, CronSearch.At(MinuteOf(now)));
    }
  }

  /** The last run of a job that ended while it was held, since it was registered. */
  ghost function LastEnded(maxRuns: int, maxOwner: int, es: seq<Event>, id: Id): Option<LastRun>
    requires Run(maxRuns, maxOwner, es).Some?
  {
    if es == [] then None
    else
      var s, e := Run(maxRuns, maxOwner, es[..|es| - 1]).value, es[|es| - 1];
      if e.End? && s.flights[e.i].id == id && id in s.table.jobs then Some(e.run)
      else if e == Untrack(id) || (e.Track? && e.p.id == id && !IsJob(e.p, e.now)) then None
      else LastEnded(maxRuns, maxOwner, es[..|es| - 1], id)
  }

  function LastOf(jobs: Jobs, id: Id): Option<LastRun> {
    if id in jobs then jobs[id].last else None
  }

  lemma StepTells(s: State, e: Event, id: Id)
    requires Enabled(s, e) && !e.Look?
    ensures LastOf(Apply(s, e).table.jobs, id) ==
      if e.End? && s.flights[e.i].id == id && id in s.table.jobs then Some(e.run)
      else if e == Untrack(id) || (e.Track? && e.p.id == id && !IsJob(e.p, e.now)) then None
      else LastOf(s.table.jobs, id)
  {
    hide Next, CronSearch.Parsed;
  }

  lemma LookTells(s: State, now: Time, order: seq<Id>, id: Id)
    requires Enabled(s, Look(now, order))
    ensures LastOf(Apply(s, Look(now, order)).table.jobs, id) == LastOf(s.table.jobs, id)
  {
    if id in s.table.jobs {
      SortedIsDistinct(order, s.table.jobs);
      var k :| 0 <= k < |order| && order[k] == id;
      NextOnlyAdvances(s.table, order, now, |order|, k);
    }
  }

  /** Over any run the last run told of a job is the last that ended, through every registration, look and other end. */
  lemma {:induction false} LastRunIsTheLastEnded(maxRuns: int, maxOwner: int, es: seq<Event>, id: Id)
    requires Run(maxRuns, maxOwner, es).Some?
    ensures LastOf(Run(maxRuns, maxOwner, es).value.table.jobs, id) == LastEnded(maxRuns, maxOwner, es, id)
  {
    if es != [] {
      var s, e := Run(maxRuns, maxOwner, es[..|es| - 1]).value, es[|es| - 1];
      LastRunIsTheLastEnded(maxRuns, maxOwner, es[..|es| - 1], id);
      if e.Look? {
        LookTells(s, e.now, e.order, id);
      } else {
        StepTells(s, e, id);
      }
    }
  }

  // What the loop sleeps past.

  /** A job is due, the loop sleeps on, and no wake-up is on its way. */
  ghost predicate SleptPast(s: State, id: Id, now: Time) {
    Sleeps(s) && id in s.table.jobs && s.table.jobs[id].next <= now < s.loop.deadline
  }

  /** A job held already is registered again with another expression. */
  predicate Changes(s: State, p: Registration, now: Time) {
    p.id in s.table.jobs && IsJob(p, now) && s.table.jobs[p.id].cron.expr != p.cron.value.expr
  }

  /** And the next tick it names is before the loop will look again. */
  predicate Hastens(s: State, p: Registration, now: Time) {
    s.loop.Asleep? && Changes(s, p, now) && Next(p.cron.value, now).value < s.loop.deadline
  }

  ghost predicate SleepsPastSome(s: State) {
    exists id, t :: SleptPast(s, id, t)
  }

  /**
   A loop that will look again before every tick, with nothing to wake it, comes to sleep past one
   exactly by a registration that gives a job held already an expression with an earlier tick.
   */
  lemma OnlyHasteIsSleptPast(s: State, e: Event)
    requires Sleeps(s) && Covers(s) && Enabled(s, e)
    ensures SleepsPastSome(Apply(s, e)) <==> e.Track? && Hastens(s, e.p, e.now)
  {
    hide Next, CronSearch.Parsed;
    if e.Track? && Hastens(s, e.p, e.now) {
      assert SleptPast(Apply(s, e), e.p.id, Next(e.p.cron.value, e.now).value);
    }
  }

  /** The last change of the job's expression since the loop last looked put its tick before the deadline. */
  ghost predicate Hastened(maxRuns: int, maxOwner: int, es: seq<Event>, id: Id)
    requires Run(maxRuns, maxOwner, es).Some?
  {
    if es == [] || es[|es| - 1].Look? then false
    else
      var s, e := Run(maxRuns, maxOwner, es[..|es| - 1]).value, es[|es| - 1];
      if e.Track? && e.p.id == id && Changes(s, e.p, e.now) then Hastens(s, e.p, e.now)
      else Hastened(maxRuns, maxOwner, es[..|es| - 1], id)
  }

  /** As long as nothing is to wake it, the loop sleeps as it did, and a tick moves only with its expression. */
  lemma SleepsOn(s: State, e: Event, id: Id)
    requires Enabled(s, e) && !e.Look? && Sleeps(Apply(s, e)) && id in Apply(s, e).table.jobs
    ensures Sleeps(s) && Apply(s, e).loop == s.loop && id in s.table.jobs
    ensures Apply(s, e).table.jobs[id].next ==
      if e.Track? && e.p.id == id && Changes(s, e.p, e.now) then Next(e.p.cron.value, e.now).value
      else s.table.jobs[id].next
  {
    hide Next, CronSearch.Parsed;
  }

  lemma {:induction false} HasteIsBefore(maxRuns: int, maxOwner: int, es: seq<Event>, id: Id)
    requires Run(maxRuns, maxOwner, es).Some?
    requires var s := Run(maxRuns, maxOwner, es).value; Sleeps(s) && id in s.table.jobs
    ensures var s := Run(maxRuns, maxOwner, es).value;
      s.table.jobs[id].next < s.loop.deadline <==> Hastened(maxRuns, maxOwner, es, id)
  {
    hide Next, CronSearch.Parsed;
    var init, e := es[..|es| - 1], es[|es| - 1];
    var s := Run(maxRuns, maxOwner, init).value;
    if e.Look? {
      LookCovers(s, e.now, e.order);
    } else {
      SleepsOn(s, e, id);
      HasteIsBefore(maxRuns, maxOwner, init, id);
    }
  }

  /**
   Over any run, a loop with nothing to wake it sleeps past a tick of a job exactly where the last
   change of its expression since the loop looked named one before the deadline, and then for no
   longer than IDLE_WAIT after that look.
   */
  lemma SleepsPastExactlyHastened(maxRuns: int, maxOwner: int, es: seq<Event>, id: Id)
    requires maxRuns >= 0 && maxOwner >= 0 && Run(maxRuns, maxOwner, es).Some?
    requires var s := Run(maxRuns, maxOwner, es).value; Sleeps(s) && id in s.table.jobs
    ensures var s := Run(maxRuns, maxOwner, es).value;
      && ((exists now :: SleptPast(s, id, now)) <==> Hastened(maxRuns, maxOwner, es, id))
      && s.loop.deadline <= s.lookedAt + IDLE_WAIT
  {
    RunKeepsInv(maxRuns, maxOwner, es);
    HasteIsBefore(maxRuns, maxOwner, es, id);
    var s := Run(maxRuns, maxOwner, es).value;
    if Hastened(maxRuns, maxOwner, es, id) {
      assert SleptPast(s, id, s.table.jobs[id].next);
    }
  }

  /** Every minute of the day. */
  const EVERY_MINUTE: Cron := CronSearch.Cron("* * * * *", set m | 0 <= m < 60, set h | 0 <= h < 24,
    set d | 1 <= d < 32, set m | 1 <= m < 13, set d | 0 <= d < 7, true, true)

  /** Once in every hour. */
  const EVERY_HOUR: Cron := EVERY_MINUTE.(expr := "30 * * * *", minute := {30})

  lemma TheyAreParsed()
    ensures CronSearch.Parsed(EVERY_MINUTE) && CronSearch.Parsed(EVERY_HOUR)
  {
    assert 0 in EVERY_MINUTE.minute && 0 in EVERY_MINUTE.hour && 1 in EVERY_MINUTE.dom;
    assert 1 in EVERY_MINUTE.month && 0 in EVERY_MINUTE.dow && 30 in EVERY_HOUR.minute;
  }

  lemma EveryMinuteIsNext()
    ensures CronSearch.TickAfter(EVERY_MINUTE, 0) == Some(1)
  {
    assert CronSearch.At(0) == CronSearch.Moment(1, 1, 1, 0, 0);
    assert CronSearch.At(1) == CronSearch.NextMinute(CronSearch.At(0)) == CronSearch.Moment(1, 1, 1, 0, 1);
    assert CronSearch.Limit(CronSearch.At(0)) == CronSearch.Moment(6, 1, 1, 0, 1);
    CronSearch.TickAfterIsFirst(EVERY_MINUTE, 0, 1);
  }

  lemma TheFirstMinute()
    ensures Next(EVERY_MINUTE, 30 * SECOND) == Some(MINUTE)
  {
    hide CronSearch.TickAfter;
    EveryMinuteIsNext();
    assert MinuteOf(30 * SECOND) == 0;
  }

  lemma EveryHourIsFound()
    ensures CronSearch.TickAfter(EVERY_HOUR, 0) != None
  {
    TheyAreParsed();
    assert !CronSearch.NoCommonDate(EVERY_HOUR);
    CronSearch.FindsNothing(EVERY_HOUR, CronSearch.At(0));
  }

  lemma NotInTheFirstMinute()
    requires CronSearch.TickAfter(EVERY_HOUR, 0) != None
    ensures CronSearch.TickAfter(EVERY_HOUR, 0).value >= 2
  {
    hide CronSearch.TickAfter, CronSearch.MatchesDay;
    assert CronSearch.At(0) == CronSearch.Moment(1, 1, 1, 0, 0);
    assert CronSearch.At(1) == CronSearch.NextMinute(CronSearch.At(0));
    assert !CronSearch.Matches(EVERY_HOUR, CronSearch.At(1));
  }

  lemma TheFirstHalfHour()
    ensures Next(EVERY_HOUR, 30 * SECOND) != None && Next(EVERY_HOUR, 30 * SECOND).value >= 2 * MINUTE
  {
    hide CronSearch.TickAfter;
    EveryHourIsFound();
    NotInTheFirstMinute();
    assert MinuteOf(30 * SECOND) == 0;
    CronSearch.MultipleIsOrdered(2, CronSearch.TickAfter(EVERY_HOUR, 0).value, MINUTE);
  }

  /** And it does: registered again with an earlier expression, a job is slept past. */
  lemma MovedTickIsSleptPast()
    ensures exists es :: Run(1, 1, es).Some? && SleptPast(Run(1, 1, es).value, 1, MINUTE)
  {
    hide Next, CronSearch.Parsed;
    TheFirstMinute();
    TheyAreParsed();
    var es, s := SleepUntilNinety();
    var soon := Registration(1, "ada", "kitbash-job", Some(EVERY_MINUTE));
    var s' := Snoc(es, Track(soon, 30 * SECOND), s);
    assert SleptPast(s', 1, MINUTE);
    assert Run(1, 1, es + [Track(soon, 30 * SECOND)]) == Some(s');
  }

  lemma SleepUntilNinety() returns (es: seq<Event>, s: State)
    ensures Run(1, 1, es) == Some(s) && s.loop == Asleep(90 * SECOND) && Sleeps(s)
    ensures 1 in s.table.jobs && s.table.jobs[1].cron == EVERY_HOUR
  {
    hide Next, CronSearch.Parsed;
    TheFirstHalfHour();
    TheyAreParsed();
    var now := 30 * SECOND;
    var slow := Registration(1, "ada", "kitbash-job", Some(EVERY_HOUR));
    var s1 := Snoc([], Look(now, []), Start(1, 1));
    var s2 := Snoc([Look(now, [])], Track(slow, now), s1);
    var e2 := [Look(now, [])] + [Track(slow, now)];
    var s3 := Snoc(e2, SendWake, s2);
    var s4 := Snoc(e2 + [SendWake], TakeWake, s3);
    es := e2 + [SendWake] + [TakeWake] + [Look(now, [1])];
    assert Sorted([1], s4.table.jobs);
    s := Snoc(e2 + [SendWake] + [TakeWake], Look(now, [1]), s4);
    assert PassTo(s4.table, [1], now, 1) == Visit(PassTo(s4.table, [1], now, 0), 1, now);
  }

  // Whether the moments jobs are due at are ticks.

  /** What an expression names is leap days alone, and the search from here on reaches none of them. */
  ghost predicate GivesUp(c: Cron, now: Time) {
    CronSearch.OnlyLeapDays(c) && !CronSearch.LeapDayComes(c, CronSearch.At(MinuteOf(now)))
  }

  /** The parser read it, and it matches something. */
  ghost predicate Meant(c: Cron) {
    CronSearch.Parsed(c) && exists u :: CronSearch.Matches(c, u)
  }

  lemma FoundIsMeant(c: Cron, now: Time)
    requires CronSearch.Parsed(c) && Next(c, now) != None
    ensures Meant(c)
  {
    NextIsATick(c, now);
  }

  /** For an expression that matches something, the search fails exactly for leap days beyond its horizon. */
  lemma FailsExactly(c: Cron, now: Time)
    requires Meant(c)
    ensures Next(c, now) == None <==> GivesUp(c, now)
  {
    CronSearch.FindsNothing(c, CronSearch.At(MinuteOf(now)));
    if CronSearch.NoCommonDate(c) {
      var u :| CronSearch.Matches(c, u);
      CronSearch.LeapTicks(c, u);
    }
  }

  lemma ADayOn(now: Time)
    ensures MinuteOf(now + NO_TICK_WAIT) == MinuteOf(now) + CronSearch.MINUTES_A_DAY
  {
    CronSearch.Quotient(now, MINUTE);
    CronSearch.Divides(now + NO_TICK_WAIT, MINUTE, MinuteOf(now) + CronSearch.MINUTES_A_DAY, now % MINUTE);
  }

  /** A job that is taken is put at a tick, but exactly where the search fails, and then a day on, which is none. */
  lemma TakenToATick(job: Job, now: Time)
    requires Meant(job.cron)
    ensures IsTick(job.cron, NextTick(job, now)) <==> !GivesUp(job.cron, now)
    ensures GivesUp(job.cron, now) ==> NextTick(job, now) == now + NO_TICK_WAIT
  {
    hide IsTick, GivesUp, CronSearch.TickAfter;
    FailsExactly(job.cron, now);
    if Next(job.cron, now) != None {
      NextIsATick(job.cron, now);
    } else if IsTick(job.cron, now + NO_TICK_WAIT) {
      NextIsFirstAfter(job.cron, now, now + NO_TICK_WAIT);
      ADayOn(now);
      CronSearch.ADayOnIsWithin(MinuteOf(now));
    }
  }

  ghost predicate AllMeant(jobs: Jobs) {
    forall id <- jobs :: Meant(jobs[id].cron)
  }

  /** What a step does to a job that is there after it. */
  lemma StepMoves(s: State, e: Event, id: Id)
    requires Enabled(s, e) && id in Apply(s, e).table.jobs && !e.Look?
    ensures var job := Apply(s, e).table.jobs[id];
      if e.Track? && e.p.id == id && (id !in s.table.jobs || Changes(s, e.p, e.now)) then
        && IsJob(e.p, e.now) && job.cron == e.p.cron.value && job.next == Next(job.cron, e.now).value
      else id in s.table.jobs && job.cron == s.table.jobs[id].cron && job.next == s.table.jobs[id].next
  {
    hide Next;
  }

  lemma LookMoves(s: State, now: Time, order: seq<Id>, id: Id)
    requires Enabled(s, Look(now, order)) && id in Apply(s, Look(now, order)).table.jobs
    ensures id in s.table.jobs
    ensures var was, job := s.table.jobs[id], Apply(s, Look(now, order)).table.jobs[id];
      && job.id == was.id && job.owner == was.owner && job.cron == was.cron
      && job.next == if was.next > now then was.next else NextTick(was, now)
  {
    SortedIsDistinct(order, s.table.jobs);
    var k :| 0 <= k < |order| && order[k] == id;
    NextOnlyAdvances(s.table, order, now, |order|, k);
  }

  lemma StepKeepsMeant(s: State, e: Event)
    requires AllMeant(s.table.jobs) && Enabled(s, e)
    ensures AllMeant(Apply(s, e).table.jobs)
  {
    hide Meant, Next;
    var jobs := Apply(s, e).table.jobs;
    forall id <- jobs
      ensures Meant(jobs[id].cron)
    {
      if e.Look? {
        LookMoves(s, e.now, e.order, id);
      } else {
        StepMoves(s, e, id);
        if e.Track? && e.p.id == id && (id !in s.table.jobs || Changes(s, e.p, e.now)) {
          FoundIsMeant(jobs[id].cron, e.now);
        }
      }
    }
  }

  lemma {:induction false} RunIsMeant(maxRuns: int, maxOwner: int, es: seq<Event>)
    requires Run(maxRuns, maxOwner, es).Some?
    ensures AllMeant(Run(maxRuns, maxOwner, es).value.table.jobs)
  {
    if es != [] {
      RunIsMeant(maxRuns, maxOwner, es[..|es| - 1]);
      StepKeepsMeant(Run(maxRuns, maxOwner, es[..|es| - 1]).value, es[|es| - 1]);
    }
  }

  /** The job's last taking, since it was registered or its expression changed, was one where the search gives up. */
  ghost predicate OffTicks(maxRuns: int, maxOwner: int, es: seq<Event>, id: Id)
    requires Run(maxRuns, maxOwner, es).Some?
  {
    if es == [] then false
    else
      var s, e := Run(maxRuns, maxOwner, es[..|es| - 1]).value, es[|es| - 1];
      if e.Look? && id in s.table.jobs && s.table.jobs[id].next <= e.now then GivesUp(s.table.jobs[id].cron, e.now)
      else if e.Track? && e.p.id == id && (id !in s.table.jobs || Changes(s, e.p, e.now)) then false
      else OffTicks(maxRuns, maxOwner, es[..|es| - 1], id)
  }

  /**
   In every reachable state the moment a job is next due at is a tick of its expression, but exactly
   where it was last taken at a time from which the search gives up: where its expression names leap days
   alone and none lies within the horizon.
   */
  lemma {:induction false} DueAtATick(maxRuns: int, maxOwner: int, es: seq<Event>, id: Id)
    requires Run(maxRuns, maxOwner, es).Some? && id in Run(maxRuns, maxOwner, es).value.table.jobs
    ensures var job := Run(maxRuns, maxOwner, es).value.table.jobs[id];
      IsTick(job.cron, job.next) <==> !OffTicks(maxRuns, maxOwner, es, id)
  {
    hide IsTick, GivesUp, Next;
    var init, e := es[..|es| - 1], es[|es| - 1];
    var s := Run(maxRuns, maxOwner, init).value;
    RunIsMeant(maxRuns, maxOwner, init);
    if e.Look? {
      LookMoves(s, e.now, e.order, id);
      TakenToATick(s.table.jobs[id], e.now);
      if s.table.jobs[id].next > e.now {
        DueAtATick(maxRuns, maxOwner, init, id);
      }
    } else {
      StepMoves(s, e, id);
      if e.Track? && e.p.id == id && (id !in s.table.jobs || Changes(s, e.p, e.now)) {
        NextIsATick(e.p.cron.value, e.now);
      } else {
        DueAtATick(maxRuns, maxOwner, init, id);
      }
    }
  }

  /** So a run a look grants is for a tick that has come, but exactly there. */
  lemma RunsAreAtTicks(maxRuns: int, maxOwner: int, es: seq<Event>, now: Time, order: seq<Id>, id: Id)
    requires maxRuns >= 0 && maxOwner >= 0 && Run(maxRuns, maxOwner, es).Some?
    requires Enabled(Run(maxRuns, maxOwner, es).value, Look(now, order))
    requires RunsFor(PassOver(Run(maxRuns, maxOwner, es).value.table, order, now).found.run, id) > 0
    ensures var jobs := Run(maxRuns, maxOwner, es).value.table.jobs;
      && id in jobs && jobs[id].next <= now
      && (IsTick(jobs[id].cron, jobs[id].next) <==> !OffTicks(maxRuns, maxOwner, es, id))
  {
    hide IsTick, Next, OffTicks;
    var t := Run(maxRuns, maxOwner, es).value.table;
    RunKeepsInv(maxRuns, maxOwner, es);
    SortedIsDistinct(order, t.jobs);
    if id !in t.jobs {
      PassRunsOnlyJobs(t, order, now, |order|, id);
    } else {
      var k :| 0 <= k < |order| && order[k] == id;
      DueSplitsExactly(t, order, now, |order|, k);
      DueAtATick(maxRuns, maxOwner, es, id);
    }
  }

  /** One job, whose tick has come, and room for it: it is granted, and taken. */
  lemma LookGrants(t: Table, now: Time)
    requires t.jobs.Keys == {1} && t.jobs[1].id == 1 && t.jobs[1].next <= now
    requires !t.jobs[1].running && !Full(t, t.jobs[1].owner)
    ensures IsOrder([1], t.jobs) && RunsFor(PassOver(t, [1], now).found.run, 1) == 1
    ensures PassOver(t, [1], now).found.run == [t.jobs[1].(next := NextTick(t.jobs[1], now), running := true)]
  {
    hide NextTick;
    var job := t.jobs[1].(next := NextTick(t.jobs[1], now), running := true);
    assert PassTo(t, [1], now, 1) == Visit(PassTo(t, [1], now, 0), 1, now);
    assert PassOver(t, [1], now).found.run == [] + [job];
    assert [job][..0] == [];
    assert Sorted([1], t.jobs) by {
      assert [1][..0] == [];
    }
  }

  /** Taken where the search gives up, and running. */
  lemma TakenOnce(c: Cron, registered: Time, taken: Time) returns (es: seq<Event>, s: State)
    requires CronSearch.Parsed(c) && Next(c, registered) != None && Next(c, registered).value <= taken
      && GivesUp(c, taken)
    ensures Run(1, 1, es) == Some(s) && s.loop.Asleep? && s.flights == [Flight(1, "ada")]
    ensures s.table.jobs.Keys == {1} && s.table.maxRuns == 1 && s.table.maxOwner == 1
    ensures var job := s.table.jobs[1];
      job.id == 1 && job.owner == "ada" && job.cron == c && job.next == taken + NO_TICK_WAIT && !IsTick(c, job.next)
  {
    hide Next, NextTick, IsTick, GivesUp, CronSearch.Parsed;
    var p := Registration(1, "ada", "kitbash-job", Some(c));
    var s1 := Snoc([], Track(p, registered), Start(1, 1));
    LookGrants(s1.table, taken);
    FoundIsMeant(c, registered);
    TakenToATick(s1.table.jobs[1], taken);
    s := Snoc([Track(p, registered)], Look(taken, [1]), s1);
    es := [Track(p, registered)] + [Look(taken, [1])];
    LookMoves(s1, taken, [1], 1);
    var job := s1.table.jobs[1].(next := NextTick(s1.table.jobs[1], taken), running := true);
    assert [job][..0] == [] && FlightsOf([job]) == [Flight(1, "ada")];
  }

  /** A run ends, and the loop is awake again. */
  lemma EndsAndWakes(es: seq<Event>, s: State) returns (es': seq<Event>, s': State)
    requires Run(1, 1, es) == Some(s) && s.loop.Asleep? && s.flights == [Flight(1, "ada")] && 1 in s.table.jobs
    ensures Run(1, 1, es') == Some(s') && s'.loop.Awake?
    ensures exists run :: s'.table == Finished(s.table, 1, "ada", run)
  {
    var end := End(0, LastRun(0, 0, 0));
    var s1 := Snoc(es, end, s);
    var s2 := Snoc(es + [end], SendWake, s1);
    s' := Snoc(es + [end] + [SendWake], TakeWake, s2);
    es' := es + [end] + [SendWake] + [TakeWake];
    assert s'.table == Finished(s.table, 1, "ada", LastRun(0, 0, 0));
  }

  /** A job whose search gives up when it is taken is started a day on, at no tick of its expression. */
  lemma GivenUpRunsADayOn(c: Cron, registered: Time, taken: Time) returns (es: seq<Event>, s: State)
    requires CronSearch.Parsed(c) && Next(c, registered) != None && Next(c, registered).value <= taken
      && GivesUp(c, taken)
    ensures Run(1, 1, es) == Some(s) && Enabled(s, Look(taken + NO_TICK_WAIT, [1]))
    ensures RunsFor(PassOver(s.table, [1], taken + NO_TICK_WAIT).found.run, 1) == 1
    ensures 1 in s.table.jobs && s.table.jobs[1].cron == c && !IsTick(c, s.table.jobs[1].next)
  {
    hide Next, IsTick, GivesUp, CronSearch.Parsed;
    var es1, s1 := TakenOnce(c, registered, taken);
    es, s := EndsAndWakes(es1, s1);
    RunKeepsInv(1, 1, es1);
    assert OwnedInFlight(s1.flights, "ada") == 1 by {
      assert s1.flights[..0] == [];
    }
    hide PassOver, FlightInv;
    LookGrants(s.table, taken + NO_TICK_WAIT);
  }

  /** Once a year, and not in every one. */
  const EVERY_LEAP_DAY: Cron := EVERY_MINUTE.(expr := "0 0 29 2 *", minute := {0}, hour := {0}, dom := {29},
    month := {2}, domAny := false)

  function TimeOf(t: CronSearch.Moment): Time
    requires CronSearch.Valid(t) && t.year >= 1
  {
    CronSearch.CountIsFromTheFirst(t);
    CronSearch.MinuteOf(t) * MINUTE
  }

  lemma TimeIsOfItsMinute(t: CronSearch.Moment)
    requires CronSearch.Valid(t) && t.year >= 1
    ensures TimeOf(t) % MINUTE == 0 && CronSearch.At(MinuteOf(TimeOf(t))) == t
  {
    hide CronSearch.MinuteOf;
    CronSearch.CountIsFromTheFirst(t);
    MinuteBegins(CronSearch.MinuteOf(t), 0);
    CronSearch.AtOfCount(t);
  }

  lemma TimesAreOrdered(t: CronSearch.Moment, u: CronSearch.Moment)
    requires CronSearch.Valid(t) && CronSearch.Valid(u) && t.year >= 1 && u.year >= 1 && CronSearch.Before(t, u)
    ensures TimeOf(t) < TimeOf(u)
  {
    hide CronSearch.MinuteOf;
    CronSearch.OrderIsTheCount(t, u);
    CronSearch.CountIsFromTheFirst(t);
    CronSearch.MultipleIsOrdered(CronSearch.MinuteOf(t) + 1, CronSearch.MinuteOf(u), MINUTE);
  }

  lemma EveryLeapDayIsParsed()
    ensures CronSearch.Parsed(EVERY_LEAP_DAY) && CronSearch.OnlyLeapDays(EVERY_LEAP_DAY)
  {
    TheyAreParsed();
    assert 0 in EVERY_LEAP_DAY.minute && 0 in EVERY_LEAP_DAY.hour && 29 in EVERY_LEAP_DAY.dom
      && 2 in EVERY_LEAP_DAY.month;
  }

  lemma TheLeapDayIsNear(before: CronSearch.Moment, leap: CronSearch.Moment)
    requires before == CronSearch.Moment(2096, 2, 28, 0, 0) && leap == CronSearch.Moment(2096, 2, 29, 0, 0)
    ensures CronSearch.Matches(EVERY_LEAP_DAY, leap) && CronSearch.Before(leap, CronSearch.Limit(before))
  {
    assert CronSearch.NextMinute(before) == CronSearch.Moment(2096, 2, 28, 0, 1);
  }

  lemma NoneAfterTheLast()
    ensures !CronSearch.LeapDayComes(EVERY_LEAP_DAY, CronSearch.Moment(2096, 3, 1, 0, 0))
  {
    var after := CronSearch.Moment(2096, 3, 1, 0, 0);
    assert CronSearch.NextMinute(after) == CronSearch.Moment(2096, 3, 1, 0, 1);
    assert CronSearch.Limit(after) == CronSearch.Moment(2101, 3, 1, 0, 1);
    assert !CronSearch.Leap(2097) && !CronSearch.Leap(2098) && !CronSearch.Leap(2099) && !CronSearch.Leap(2100)
      && !CronSearch.Leap(2101);
  }

  /** Registered the day before a leap day of 2096 and taken the day after it, the search gives up. */
  lemma LastLeapDayOfACentury() returns (registered: Time, taken: Time)
    ensures var c := EVERY_LEAP_DAY;
      CronSearch.Parsed(c) && Next(c, registered) != None && Next(c, registered).value <= taken && GivesUp(c, taken)
  {
    hide Next, TimeOf, CronSearch.At, CronSearch.Limit, CronSearch.Parsed, CronSearch.LeapDayComes;
    var before, leap, after :=
      CronSearch.Moment(2096, 2, 28, 0, 0), CronSearch.Moment(2096, 2, 29, 0, 0), CronSearch.Moment(2096, 3, 1, 0, 0);
    registered, taken := TimeOf(before), TimeOf(after);
    TimeIsOfItsMinute(before);
    TimeIsOfItsMinute(leap);
    TimeIsOfItsMinute(after);
    TimesAreOrdered(before, leap);
    TimesAreOrdered(leap, after);
    EveryLeapDayIsParsed();
    TheLeapDayIsNear(before, leap);
    NextIsFirstAfter(EVERY_LEAP_DAY, registered, TimeOf(leap));
    NoneAfterTheLast();
  }

  /** And there is such a job: for 29 February, registered in 2096, it is started the day after it was taken too. */
  lemma ALeapDayJobRunsOffItsTicks() returns (es: seq<Event>, now: Time)
    ensures Run(1, 1, es).Some?
    ensures var s := Run(1, 1, es).value;
      && Enabled(s, Look(now, [1])) && RunsFor(PassOver(s.table, [1], now).found.run, 1) == 1
      && s.table.jobs[1].cron == EVERY_LEAP_DAY && !IsTick(EVERY_LEAP_DAY, s.table.jobs[1].next)
  {
    hide Next, IsTick, GivesUp, CronSearch.Parsed, Run, PassOver;
    var registered, taken := LastLeapDayOfACentury();
    var s;
    es, s := GivenUpRunsADayOn(EVERY_LEAP_DAY, registered, taken);
    now := taken + NO_TICK_WAIT;
  }

  lemma Snoc(es: seq<Event>, e: Event, s: State) returns (s': State)
    requires Run(1, 1, es) == Some(s) && Enabled(s, e)
    ensures s' == Apply(s, e) && Run(1, 1, es + [e]) == Some(s')
  {
    assert (es + [e])[..|es + [e]| - 1] == es;
    s' := Apply(s, e);
  }
}
