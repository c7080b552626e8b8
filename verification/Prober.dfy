/**
 What is probed, and the loop that probes it. The class is the mutex-held part of prober; the
 system adds the loop's sleep, the one-slot wake-up, the goroutines that are about to send one,
 and the requests in flight.
 */
module Prober {
  import opened Collections

  type Id = string
  type Time = int
  type Duration = int

  const SECOND: Duration := 1000000000
  const DEFAULT_INTERVAL: Duration := 30 * SECOND
  const MIN_INTERVAL: Duration := 5 * SECOND
  const IDLE_WAIT: Duration := 60 * SECOND

  /** The interval a manifest spells: nothing, something unreadable, or a duration. */
  datatype Spelling = Unspelled | Unreadable | Spelled(d: Duration)

  function Every(minInterval: Duration, spelling: Spelling): (d: Duration)
    ensures minInterval > 0 ==> d > 0
    ensures spelling.Spelled? && spelling.d > 0 ==>
      d >= minInterval && d >= spelling.d && d in {minInterval, spelling.d}
    ensures d < minInterval <==> !(spelling.Spelled? && spelling.d > 0) && DEFAULT_INTERVAL < minInterval
  {
    match spelling
    case Spelled(d) => if d <= 0 then DEFAULT_INTERVAL else if d < minInterval then minInterval else d
    case _ => DEFAULT_INTERVAL
  }

  /** A registration, as far as the prober reads it. */
  datatype Registration = Registration(id: Id, probed: bool, endpoint: string, path: string, interval: Spelling)

  datatype Probe = Probe(
    id: Id, endpoint: string, path: string, interval: Duration, next: Time, running: bool,
    last: Time, healthy: bool, probed: bool)

  type Targets = map<Id, Probe>

  /** A Process held already keeps its due time, its mark and its reading. A new one is due at once. */
  function Tracked(targets: Targets, p: Registration, now: Time, minInterval: Duration): Targets {
    var every := Every(minInterval, p.interval);
    if p.id in targets then
      targets[p.id := targets[p.id].(endpoint := p.endpoint, path := p.path, interval := every)]
    else
      targets[p.id := Probe(p.id, p.endpoint, p.path, every, now, false, 0, false, false)]
  }

  predicate IsDue(p: Probe, now: Time) {
    !p.running && p.next <= now
  }

  function Swept(p: Probe, now: Time): Probe {
    if IsDue(p, now) then p.(running := true, next := now + p.interval) else p
  }

  function SweptAll(targets: Targets, now: Time): Targets {
    map id | id in targets :: Swept(targets[id], now)
  }

  predicate Lists(due: seq<Probe>, id: Id) {
    due != [] && (due[|due| - 1].id == id || Lists(due[..|due| - 1], id))
  }

  predicate EachOnce(due: seq<Probe>) {
    due == [] || (!Lists(due[..|due| - 1], due[|due| - 1].id) && EachOnce(due[..|due| - 1]))
  }

  predicate Resting(p: Probe, now: Time) {
    !p.running && p.next > now
  }

  /** The due ones, each once, as they stand after the sweep. */
  ghost predicate IsSweep(due: seq<Probe>, targets: Targets, now: Time) {
    && (forall p <- due :: p.id in targets && IsDue(targets[p.id], now) && p == Swept(targets[p.id], now))
    && EachOnce(due)
    && (forall id <- targets :: IsDue(targets[id], now) ==> Lists(due, id))
  }

  lemma {:induction false} ListsWhatIsThere(due: seq<Probe>, id: Id)
    ensures Lists(due, id) <==> exists p :: p in due && p.id == id
  {
    if due != [] {
      ListsWhatIsThere(due[..|due| - 1], id);
      assert due == due[..|due| - 1] + [due[|due| - 1]];
    }
  }

  /** The wait is the time to the nearest due time of a target not in flight, or IDLE_WAIT. */
  ghost predicate IsWait(wait: Duration, after: Targets, now: Time) {
    && wait <= IDLE_WAIT
    && (forall id <- after :: !after[id].running ==> wait <= after[id].next - now)
    && (wait == IDLE_WAIT || exists id :: id in after && !after[id].running && wait == after[id].next - now)
  }

  ghost predicate Keyed(targets: Targets) {
    forall id <- targets :: targets[id].id == id
  }

  lemma DueGrows(due: seq<Probe>, p: Probe)
    requires EachOnce(due) && forall q <- due :: q.id != p.id
    ensures EachOnce(due + [p])
    ensures forall id :: Lists(due + [p], id) <==> (Lists(due, id) || id == p.id)
  {
    ListsWhatIsThere(due, p.id);
    assert (due + [p])[..|due|] == due;
  }

  datatype Looked = Looked(targets: Targets, due: seq<Probe>, wait: Duration)

  /** What a pass makes of one more target. */
  function See(before: Looked, id: Id, now: Time): (after: Looked)
    requires id in before.targets
    ensures after.targets.Keys == before.targets.Keys
  {
    var target := before.targets[id];
    if target.running then before
    else if target.next <= now then
      var sent := target.(running := true, next := now + target.interval);
      Looked(before.targets[id := sent], before.due + [sent], before.wait)
    else if target.next - now < before.wait then before.(wait := target.next - now)
    else before
  }

  lemma SeeAdds(before: Looked, id: Id, now: Time)
    requires id in before.targets
    ensures var target, after := before.targets[id], See(before, id, now);
      && after.targets == before.targets[id := Swept(target, now)]
      && after.due == (if IsDue(target, now) then before.due + [Swept(target, now)] else before.due)
      && after.wait ==
           if Resting(target, now) && target.next - now < before.wait then target.next - now else before.wait
  {
  }

  /** The pass of due over the targets in the order ids names them. */
  function LookOver(targets: Targets, ids: seq<Id>, now: Time): (l: Looked)
    requires forall id <- ids :: id in targets
    ensures l.targets.Keys == targets.Keys
  {
    if ids == [] then Looked(targets, [], IDLE_WAIT)
    else See(LookOver(targets, ids[..|ids| - 1], now), ids[|ids| - 1], now)
  }

  lemma LookOverNext(targets: Targets, ids: seq<Id>, i: nat, now: Time)
    requires i < |ids| && forall id <- ids :: id in targets
    ensures LookOver(targets, ids[..i + 1], now) == See(LookOver(targets, ids[..i], now), ids[i], now)
  {
    assert ids[..i + 1][..i] == ids[..i];
  }

  lemma {:induction false} LookOverTargets(targets: Targets, ids: seq<Id>, now: Time)
    requires (forall id <- ids :: id in targets) && NoDuplicates(ids)
    ensures forall id <- targets ::
      LookOver(targets, ids, now).targets[id] == if id in ids then Swept(targets[id], now) else targets[id]
  {
    if ids != [] {
      assert ids == ids[..|ids| - 1] + [ids[|ids| - 1]];
      LookOverTargets(targets, ids[..|ids| - 1], now);
      SeeAdds(LookOver(targets, ids[..|ids| - 1], now), ids[|ids| - 1], now);
    }
  }

  /** What one more target adds to the due ones. */
  lemma LookOverDueStep(targets: Targets, ids: seq<Id>, now: Time)
    requires ids != [] && (forall id <- ids :: id in targets) && NoDuplicates(ids)
    ensures var id := ids[|ids| - 1]; var before := LookOver(targets, ids[..|ids| - 1], now).due;
      LookOver(targets, ids, now).due == if IsDue(targets[id], now) then before + [Swept(targets[id], now)] else before
  {
    LookOverTargets(targets, ids[..|ids| - 1], now);
    SeeAdds(LookOver(targets, ids[..|ids| - 1], now), ids[|ids| - 1], now);
  }

  lemma {:induction false} LookOverSound(targets: Targets, ids: seq<Id>, now: Time)
    requires (forall id <- ids :: id in targets) && NoDuplicates(ids) && Keyed(targets)
    ensures forall p <- LookOver(targets, ids, now).due ::
      p.id in ids && IsDue(targets[p.id], now) && p == Swept(targets[p.id], now)
  {
    if ids != [] {
      LookOverSound(targets, ids[..|ids| - 1], now);
      LookOverDueStep(targets, ids, now);
    }
  }

  lemma {:induction false} LookOverComplete(targets: Targets, ids: seq<Id>, now: Time)
    requires (forall id <- ids :: id in targets) && NoDuplicates(ids) && Keyed(targets)
    ensures EachOnce(LookOver(targets, ids, now).due)
    ensures forall id <- ids :: IsDue(targets[id], now) ==> Lists(LookOver(targets, ids, now).due, id)
  {
    if ids != [] {
      var init, id := ids[..|ids| - 1], ids[|ids| - 1];
      LookOverComplete(targets, init, now);
      LookOverSound(targets, init, now);
      LookOverDueStep(targets, ids, now);
      if IsDue(targets[id], now) {
        DueGrows(LookOver(targets, init, now).due, Swept(targets[id], now));
      }
    }
  }

  /** What one more target does to the wait. */
  lemma LookOverWaitStep(targets: Targets, ids: seq<Id>, now: Time)
    requires ids != [] && (forall id <- ids :: id in targets) && NoDuplicates(ids)
    ensures var id := ids[|ids| - 1]; var before := LookOver(targets, ids[..|ids| - 1], now).wait;
      LookOver(targets, ids, now).wait ==
        if Resting(targets[id], now) && targets[id].next - now < before then targets[id].next - now else before
  {
    LookOverTargets(targets, ids[..|ids| - 1], now);
    SeeAdds(LookOver(targets, ids[..|ids| - 1], now), ids[|ids| - 1], now);
  }

  ghost predicate IsNearest(targets: Targets, ids: seq<Id>, now: Time, wait: Time)
    requires forall id <- ids :: id in targets
  {
    && 0 < wait <= IDLE_WAIT
    && (forall id <- ids :: Resting(targets[id], now) ==> wait <= targets[id].next - now)
    && (wait == IDLE_WAIT || exists id :: id in ids && Resting(targets[id], now) && wait == targets[id].next - now)
  }

  lemma NearestOfOneMore(targets: Targets, init: seq<Id>, id: Id, now: Time, wait: Time, next: Time)
    requires (forall x <- init :: x in targets) && id in targets && IsNearest(targets, init, now, wait)
    requires next == if Resting(targets[id], now) && targets[id].next - now < wait then targets[id].next - now else wait
    ensures IsNearest(targets, init + [id], now, next)
  {
    assert id in init + [id];
    if next == wait && wait != IDLE_WAIT {
      var other :| other in init && Resting(targets[other], now) && wait == targets[other].next - now;
      assert other in init + [id];
    }
  }

  lemma {:induction false} LookOverWaits(targets: Targets, ids: seq<Id>, now: Time)
    requires (forall id <- ids :: id in targets) && NoDuplicates(ids)
    ensures IsNearest(targets, ids, now, LookOver(targets, ids, now).wait)
  {
    if ids != [] {
      var init, id := ids[..|ids| - 1], ids[|ids| - 1];
      LookOverWaits(targets, init, now);
      LookOverWaitStep(targets, ids, now);
      NearestOfOneMore(targets, init, id, now, LookOver(targets, init, now).wait, LookOver(targets, ids, now).wait);
      assert ids == init + [id];
    }
  }

  /** Whatever the order, a pass over all targets is the sweep, and its wait the nearest due time. */
  lemma LookOverAll(targets: Targets, ids: seq<Id>, now: Time)
    requires (forall id :: id in ids <==> id in targets) && NoDuplicates(ids) && Keyed(targets)
    ensures var l := LookOver(targets, ids, now);
      l.targets == SweptAll(targets, now) && IsSweep(l.due, targets, now) && IsWait(l.wait, l.targets, now)
        && l.wait > 0
  {
    hide See, Swept;
    LookOverSweeps(targets, ids, now);
    hide IsSweep, IsWait, IsNearest;
    LookOverWaits(targets, ids, now);
    NearestIsWait(targets, ids, now, LookOver(targets, ids, now).wait);
  }

  lemma LookOverSweeps(targets: Targets, ids: seq<Id>, now: Time)
    requires (forall id :: id in ids <==> id in targets) && NoDuplicates(ids) && Keyed(targets)
    ensures var l := LookOver(targets, ids, now); l.targets == SweptAll(targets, now) && IsSweep(l.due, targets, now)
  {
    hide See, Swept;
    LookOverTargets(targets, ids, now);
    LookOverSound(targets, ids, now);
    LookOverComplete(targets, ids, now);
  }

  lemma NearestIsWait(targets: Targets, ids: seq<Id>, now: Time, wait: Duration)
    requires (forall id :: id in ids <==> id in targets) && IsNearest(targets, ids, now, wait)
    ensures IsWait(wait, SweptAll(targets, now), now) && wait > 0
  {
    var after := SweptAll(targets, now);
    assert forall id <- targets :: Resting(targets[id], now) <==> !after[id].running;
    if wait != IDLE_WAIT {
      var id :| id in ids && Resting(targets[id], now) && wait == targets[id].next - now;
      assert after[id] == targets[id];
    }
  }

  predicate SameDeclaration(targets: Targets, sent: Probe) {
    sent.id in targets && targets[sent.id].endpoint == sent.endpoint && targets[sent.id].path == sent.path
  }

  /** A reading counts for the declaration it was sent for. The target stops being in flight either way. */
  function Finished(targets: Targets, sent: Probe, at: Time, healthy: bool): Targets {
    if sent.id !in targets then targets
    else
      var idle := targets[sent.id].(running := false);
      targets[sent.id := if SameDeclaration(targets, sent) then idle.(last := at, healthy := healthy, probed := true)
        else idle]
  }

  class Prober {
    const minInterval: Duration
    var targets: Targets
    var changed: bool

    constructor (minInterval: Duration)
      ensures targets == map[] && !changed && this.minInterval > 0
    {
      this.minInterval := if minInterval <= 0 then MIN_INTERVAL else minInterval;
      targets, changed := map[], false;
    }

    /** The wake-up channel holds one: sending into a full one is dropped. */
    method Wake()
      modifies this`changed
      ensures changed
    {
      if !changed {
        changed := true;
      }
    }

    method Track(p: Registration, now: Time)
      modifies this
      ensures targets == if p.probed then Tracked(old(targets), p, now, minInterval) else old(targets) - {p.id}
      ensures changed == (old(changed) || (p.probed <==> p.id !in old(targets)))
    {
      if !p.probed {
        Untrack(p.id);
        return;
      }
      if p.id in targets {
        var current := targets[p.id];
        targets := targets[p.id := current.(endpoint := p.endpoint, path := p.path,
          interval := Every(minInterval, p.interval))];
        return;
      }
      targets := targets[p.id := Probe(p.id, p.endpoint, p.path, Every(minInterval, p.interval), now, false, 0, false,
        false)];
      Wake();
    }

    method Untrack(id: Id)
      modifies this
      ensures targets == old(targets) - {id}
      ensures changed == (old(changed) || id in old(targets))
    {
      var tracked := id in targets;
      targets := targets - {id};
      if tracked {
        Wake();
      }
    }

    /** The body of the sweep for one target, over what the sweep has collected so far. */
    method LookAt(id: Id, now: Time, due: seq<Probe>, wait: Duration) returns (due': seq<Probe>, wait': Duration)
      requires id in targets
      modifies this`targets
      ensures Looked(targets, due', wait') == See(Looked(old(targets), due, wait), id, now)
    {
      due', wait' := due, wait;
      var target := targets[id];
      if target.running {
        return;
      }
      if target.next <= now {
        target := target.(running := true, next := now + target.interval);
        targets := targets[id := target];
        due' := due + [target];
        return;
      }
      if target.next - now < wait {
        wait' := target.next - now;
      }
    }

    method Due(now: Time) returns (due: seq<Probe>, wait: Duration)
      requires Keyed(targets)
      modifies this`targets
      ensures targets == SweptAll(old(targets), now)
      ensures IsSweep(due, old(targets), now)
      ensures IsWait(wait, targets, now) && wait > 0
    {
      hide IsSweep, IsWait, SweptAll, See;
      due, wait := [], IDLE_WAIT;
      ghost var was := targets;
      var ids := Enumerate(targets);
      for i := 0 to |ids|
        invariant targets.Keys == was.Keys
        invariant Looked(targets, due, wait) == LookOver(was, ids[..i], now)
      {
        LookOverNext(was, ids, i, now);
        due, wait := LookAt(ids[i], now, due, wait);
      }
      assert ids[..|ids|] == ids;
      LookOverAll(was, ids, now);
    }

    method Finish(sent: Probe, at: Time, healthy: bool) returns (counts: bool)
      modifies this
      ensures targets == Finished(old(targets), sent, at, healthy)
      ensures counts == SameDeclaration(old(targets), sent)
      ensures changed == (old(changed) || sent.id in old(targets))
    {
      var tracked := sent.id in targets;
      counts := tracked && targets[sent.id].endpoint == sent.endpoint && targets[sent.id].path == sent.path;
      if tracked {
        targets := targets[sent.id := targets[sent.id].(running := false)];
      }
      if counts {
        targets := targets[sent.id := targets[sent.id].(last := at, healthy := healthy, probed := true)];
      }
      if tracked {
        Wake();
      }
    }
  }

  /** The loop has looked and not slept yet, or sleeps until a deadline. */
  datatype Loop = Awake | Asleep(deadline: Time)

  /** A request on its way: what it is about, when it left, and the interval then in force. */
  datatype Flight = Flight(probe: Probe, at: Time)

  /** waking counts the goroutines past their critical section that have not sent their wake-up. */
  datatype State = State(
    targets: Targets, changed: bool, waking: nat, loop: Loop, flights: seq<Flight>, lastSent: map<Id, Flight>)

  datatype Event =
    | Track(p: Registration, now: Time)
    | Untrack(id: Id)
    | Answer(i: nat, at: Time, healthy: bool)
    | SendWake
    | TakeWake
    | TimerFires(now: Time)
    | Look(now: Time, due: seq<Probe>, wait: Duration)

  const START := State(map[], false, 0, Awake, [], map[])

  function InFlight(flights: seq<Flight>, id: Id): nat {
    CountIf(flights, (f: Flight) => f.probe.id == id)
  }

  ghost predicate Enabled(s: State, e: Event) {
    match e
    case Track(_, _) => true
    case Untrack(_) => true
    case Answer(i, _, _) => i < |s.flights|
    case SendWake => s.waking > 0
    case TakeWake => s.loop.Asleep? && s.changed
    case TimerFires(now) => s.loop.Asleep? && s.loop.deadline <= now
    case Look(now, due, wait) =>
      s.loop.Awake? && IsSweep(due, s.targets, now) && IsWait(wait, SweptAll(s.targets, now), now)
  }

  function Dropped(s: State, id: Id): State {
    if id !in s.targets then s
    else
      s.(targets := s.targets - {id}, waking := s.waking + 1, lastSent := s.lastSent - {id})
  }

  function SentAll(due: seq<Probe>, now: Time): seq<Flight> {
    seq(|due|, k requires 0 <= k < |due| => Flight(due[k], now))
  }

  function Apply(s: State, e: Event, minInterval: Duration): State
    requires e.Answer? ==> e.i < |s.flights|
    requires e.SendWake? ==> s.waking > 0
  {
    match e
    case Track(p, now) =>
      if !p.probed then Dropped(s, p.id)
      else
        s.(targets := Tracked(s.targets, p, now, minInterval),
           waking := if p.id in s.targets then s.waking else s.waking + 1)
    case Untrack(id) => Dropped(s, id)
    case Answer(i, at, healthy) =>
      var sent := s.flights[i].probe;
      var flights := RemoveAt(s.flights, i);
      s.(targets := Finished(s.targets, sent, at, healthy), flights := flights,
         waking := if sent.id in s.targets then s.waking + 1 else s.waking)
    case SendWake => s.(waking := s.waking - 1, changed := true)
    case TakeWake => s.(changed := false, loop := Awake)
    case TimerFires(_) => s.(loop := Awake)
    case Look(now, due, wait) =>
      s.(targets := SweptAll(s.targets, now), loop := Asleep(now + wait), flights := s.flights + SentAll(due, now),
         lastSent := map id | id in s.targets && (id in s.lastSent || IsDue(s.targets[id], now)) ::
           if IsDue(s.targets[id], now) then Flight(Swept(s.targets[id], now), now) else s.lastSent[id])
  }

  ghost function Run(es: seq<Event>, minInterval: Duration): Option<State> {
    if es == [] then Some(START)
    else
      match Run(es[..|es| - 1], minInterval)
      case None => None
      case Some(s) => if Enabled(s, es[|es| - 1]) then Some(Apply(s, es[|es| - 1], minInterval)) else None
  }

  /** Nothing the loop should look at is hidden from it. */
  ghost predicate WakeInv(s: State) {
    || s.loop.Awake? || s.changed || s.waking > 0
    || forall id <- s.targets :: !s.targets[id].running ==> s.loop.deadline <= s.targets[id].next
  }

  ghost predicate SpacedInv(s: State) {
    forall id <- s.lastSent :: id in s.targets
      && s.targets[id].next == s.lastSent[id].at + s.lastSent[id].probe.interval
  }

  predicate Marked(targets: Targets, id: Id) {
    id in targets && targets[id].running
  }

  /** The requests about a target that its mark does not stand for: it was dropped under them. */
  function Adrift(s: State, id: Id): int {
    InFlight(s.flights, id) - if Marked(s.targets, id) then 1 else 0
  }

  /** A target that is marked has a request in flight. */
  ghost predicate FlightInv(s: State) {
    && Keyed(s.targets)
    && forall id :: Adrift(s, id) >= 0
  }

  lemma StepKeepsWakeInv(s: State, e: Event, minInterval: Duration)
    requires WakeInv(s) && Enabled(s, e)
    ensures WakeInv(Apply(s, e, minInterval))
  {
  }

  lemma StepKeepsSpacedInv(s: State, e: Event, minInterval: Duration)
    requires SpacedInv(s) && Enabled(s, e)
    ensures SpacedInv(Apply(s, e, minInterval))
  {
  }

  /** A sweep adds one request per due target. */
  lemma {:induction false} SweepCounts(due: seq<Probe>, now: Time, id: Id)
    requires EachOnce(due)
    ensures InFlight(SentAll(due, now), id) == if Lists(due, id) then 1 else 0
  {
    if due != [] {
      assert SentAll(due, now)[..|due| - 1] == SentAll(due[..|due| - 1], now);
      SweepCounts(due[..|due| - 1], now, id);
    }
  }

  lemma LookCounts(s: State, e: Event, minInterval: Duration, id: Id)
    requires Keyed(s.targets) && e.Look? && Enabled(s, e)
    ensures InFlight(Apply(s, e, minInterval).flights, id) ==
      InFlight(s.flights, id) + if id in s.targets && IsDue(s.targets[id], e.now) then 1 else 0
  {
    CountIfConcat(s.flights, SentAll(e.due, e.now), (f: Flight) => f.probe.id == id);
    SweepCounts(e.due, e.now, id);
    ListsWhatIsThere(e.due, id);
  }

  lemma AnswerCounts(s: State, e: Event, minInterval: Duration, id: Id)
    requires e.Answer? && Enabled(s, e)
    ensures InFlight(Apply(s, e, minInterval).flights, id) ==
      InFlight(s.flights, id) - if s.flights[e.i].probe.id == id then 1 else 0
  {
    CountIfRemoveAt(s.flights, e.i, (f: Flight) => f.probe.id == id);
  }

  /** The target is dropped while it is marked, so that the request goes on without it. */
  predicate DropsUnder(s: State, e: Event, id: Id) {
    Marked(s.targets, id) && (e == Untrack(id) || (e.Track? && e.p.id == id && !e.p.probed))
  }

  /** A request is answered and finds no mark of its target to take away. */
  predicate AnswersAdrift(s: State, e: Event, id: Id) {
    e.Answer? && e.i < |s.flights| && s.flights[e.i].probe.id == id && !Marked(s.targets, id)
  }

  lemma StepDrifts(s: State, e: Event, minInterval: Duration, id: Id)
    requires Keyed(s.targets) && Enabled(s, e)
    ensures Adrift(Apply(s, e, minInterval), id) ==
      Adrift(s, id) + (if DropsUnder(s, e, id) then 1 else 0) - if AnswersAdrift(s, e, id) then 1 else 0
  {
    hide Every;
    match e
    case Look(_, _, _) => LookCounts(s, e, minInterval, id);
    case Answer(_, _, _) => AnswerCounts(s, e, minInterval, id);
    case _ =>
  }

  lemma StepKeepsFlightInv(s: State, e: Event, minInterval: Duration)
    requires FlightInv(s) && Enabled(s, e)
    ensures FlightInv(Apply(s, e, minInterval))
  {
    forall id
      ensures Adrift(Apply(s, e, minInterval), id) >= 0
    {
      StepDrifts(s, e, minInterval, id);
      if AnswersAdrift(s, e, id) {
        AnswerCounts(s, e, minInterval, id);
      }
    }
  }

  lemma {:induction false} RunKeepsInv(es: seq<Event>, minInterval: Duration)
    requires Run(es, minInterval).Some?
    ensures var s := Run(es, minInterval).value; WakeInv(s) && SpacedInv(s) && FlightInv(s)
  {
    if es != [] {
      var init, last := es[..|es| - 1], es[|es| - 1];
      RunKeepsInv(init, minInterval);
      StepKeepsWakeInv(Run(init, minInterval).value, last, minInterval);
      StepKeepsSpacedInv(Run(init, minInterval).value, last, minInterval);
      StepKeepsFlightInv(Run(init, minInterval).value, last, minInterval);
    }
  }

  /**
   The loop never sleeps past a due probe: at any moment a target not in flight is due, either a
   wake-up is pending or about to be sent, or the loop is awake, or its timer has run out.
   */
  lemma {:induction false} NeverSleepsPastADueProbe(es: seq<Event>, minInterval: Duration, id: Id, now: Time)
    requires Run(es, minInterval).Some?
    requires var s := Run(es, minInterval).value;
      id in s.targets && !s.targets[id].running && s.targets[id].next <= now
    ensures var s := Run(es, minInterval).value;
      Enabled(s, SendWake) || Enabled(s, TakeWake) || Enabled(s, TimerFires(now)) || s.loop.Awake?
  {
    RunKeepsInv(es, minInterval);
  }

  /** How often a target was dropped under a request, less the requests that were answered without a mark of it. */
  ghost function Drift(es: seq<Event>, minInterval: Duration, id: Id): int
    requires Run(es, minInterval).Some?
  {
    if es == [] then 0
    else
      var s, e := Run(es[..|es| - 1], minInterval).value, es[|es| - 1];
      Drift(es[..|es| - 1], minInterval, id)
        + (if DropsUnder(s, e, id) then 1 else 0) - (if AnswersAdrift(s, e, id) then 1 else 0)
  }

  /**
   The requests about a target in flight are the one its mark stands for and those it was dropped
   under. So there is at most one exactly where it was never dropped under one that is still on its
   way, or under one alone and no other was sent since.
   */
  lemma {:induction false} RequestsInFlight(es: seq<Event>, minInterval: Duration, id: Id)
    requires Run(es, minInterval).Some?
    ensures var s := Run(es, minInterval).value; var drift := Drift(es, minInterval, id);
      && drift >= 0
      && InFlight(s.flights, id) == drift + (if Marked(s.targets, id) then 1 else 0)
      && (InFlight(s.flights, id) <= 1 <==> drift == 0 || (drift == 1 && !Marked(s.targets, id)))
  {
    RunKeepsInv(es, minInterval);
    if es != [] {
      var init := es[..|es| - 1];
      RequestsInFlight(init, minInterval, id);
      RunKeepsInv(init, minInterval);
      StepDrifts(Run(init, minInterval).value, es[|es| - 1], minInterval, id);
    }
  }

  /** A request is sent beside another of its target exactly by a look that finds it due while one is adrift. */
  lemma SecondRequestIsSent(es: seq<Event>, minInterval: Duration, e: Event, id: Id)
    requires Run(es, minInterval).Some? && Enabled(Run(es, minInterval).value, e)
    requires InFlight(Run(es, minInterval).value.flights, id) == 1
    ensures var s := Run(es, minInterval).value;
      InFlight(Apply(s, e, minInterval).flights, id) == 2 <==>
        && e.Look? && Drift(es, minInterval, id) == 1 && id in s.targets && IsDue(s.targets[id], e.now)
  {
    RunKeepsInv(es, minInterval);
    RequestsInFlight(es, minInterval, id);
    var s := Run(es, minInterval).value;
    match e
    case Look(_, _, _) => LookCounts(s, e, minInterval, id);
    case Answer(_, _, _) => AnswerCounts(s, e, minInterval, id);
    case _ =>
  }

  /** Two requests of one registration are at least the interval that was in force at the first apart. */
  lemma RequestsAreSpaced(es: seq<Event>, minInterval: Duration, now: Time, due: seq<Probe>, wait: Duration, k: nat)
    requires Run(es, minInterval).Some? && Enabled(Run(es, minInterval).value, Look(now, due, wait)) && k < |due|
    ensures var s := Run(es, minInterval).value;
      due[k].id in s.lastSent ==> now >= s.lastSent[due[k].id].at + s.lastSent[due[k].id].probe.interval
  {
    RunKeepsInv(es, minInterval);
  }

  /** A look sends one request about every target that is not in flight and whose time has come, and no other. */
  lemma LookSendsExactly(es: seq<Event>, minInterval: Duration, now: Time, due: seq<Probe>, wait: Duration, id: Id)
    requires Run(es, minInterval).Some? && Enabled(Run(es, minInterval).value, Look(now, due, wait))
    ensures var s := Run(es, minInterval).value; var s' := Apply(s, Look(now, due, wait), minInterval);
      InFlight(s'.flights, id) == InFlight(s.flights, id) +
        if id in s.targets && !s.targets[id].running && s.targets[id].next <= now then 1 else 0
  {
    RunKeepsInv(es, minInterval);
    LookCounts(Run(es, minInterval).value, Look(now, due, wait), minInterval, id);
  }

  /** And a target that was sent a request is due again exactly that interval after it, whatever came between. */
  lemma DueAgainExactly(es: seq<Event>, minInterval: Duration, id: Id)
    requires Run(es, minInterval).Some? && id in Run(es, minInterval).value.lastSent
    ensures var s := Run(es, minInterval).value;
      id in s.targets && s.targets[id].next == s.lastSent[id].at + s.lastSent[id].probe.interval
  {
    RunKeepsInv(es, minInterval);
  }

  /** An answer that counts is the reading, and takes the mark; one that does not takes the mark of whoever is there. */
  lemma AnswerIsTheReading(targets: Targets, sent: Probe, at: Time, healthy: bool)
    ensures var after := Finished(targets, sent, at, healthy);
      && after.Keys == targets.Keys
      && (forall id <- targets | id != sent.id :: after[id] == targets[id])
      && (sent.id in targets ==>
            && !after[sent.id].running
            && after[sent.id].endpoint == targets[sent.id].endpoint && after[sent.id].path == targets[sent.id].path
            && after[sent.id].interval == targets[sent.id].interval && after[sent.id].next == targets[sent.id].next)
      && (SameDeclaration(targets, sent) ==>
            after[sent.id].last == at && after[sent.id].healthy == healthy && after[sent.id].probed)
      && (sent.id in targets && !SameDeclaration(targets, sent) ==>
            && after[sent.id].last == targets[sent.id].last && after[sent.id].healthy == targets[sent.id].healthy
            && after[sent.id].probed == targets[sent.id].probed)
  {
  }

  /** A registration is taken over as it is; what is held of the target already stays, and a new one is due at once. */
  lemma TrackTakesTheDeclaration(targets: Targets, p: Registration, now: Time, minInterval: Duration)
    ensures var after := Tracked(targets, p, now, minInterval);
      && after.Keys == targets.Keys + {p.id} && (forall id <- targets | id != p.id :: after[id] == targets[id])
      && after[p.id].endpoint == p.endpoint && after[p.id].path == p.path
      && after[p.id].interval == Every(minInterval, p.interval)
      && (p.id in targets ==>
            && after[p.id].next == targets[p.id].next && after[p.id].running == targets[p.id].running
            && after[p.id].last == targets[p.id].last && after[p.id].healthy == targets[p.id].healthy
            && after[p.id].probed == targets[p.id].probed)
      && (p.id !in targets ==> after[p.id].next == now && !after[p.id].running && !after[p.id].probed)
  {
  }

  datatype Reading = Reading(at: Time, healthy: bool)

  /** The last answer that came under the declaration its target had then, since the target was registered. */
  ghost function LastReading(es: seq<Event>, minInterval: Duration, id: Id): Option<Reading>
    requires Run(es, minInterval).Some?
  {
    if es == [] then None
    else
      var s, e := Run(es[..|es| - 1], minInterval).value, es[|es| - 1];
      if e.Answer? && s.flights[e.i].probe.id == id && id in s.targets
        && s.flights[e.i].probe.endpoint == s.targets[id].endpoint && s.flights[e.i].probe.path == s.targets[id].path
      then Some(Reading(e.at, e.healthy))
      else if e == Untrack(id) || (e.Track? && e.p.id == id && !e.p.probed) then None
      else LastReading(es[..|es| - 1], minInterval, id)
  }

  function ReadingOf(targets: Targets, id: Id): Option<Reading> {
    if id in targets && targets[id].probed then Some(Reading(targets[id].last, targets[id].healthy)) else None
  }

  /** Over any run what is known of a target is its last reading, through every registration, look and other answer. */
  lemma {:induction false} ReadingIsTheLast(es: seq<Event>, minInterval: Duration, id: Id)
    requires Run(es, minInterval).Some?
    ensures ReadingOf(Run(es, minInterval).value.targets, id) == LastReading(es, minInterval, id)
  {
    if es != [] {
      var s, e := Run(es[..|es| - 1], minInterval).value, es[|es| - 1];
      ReadingIsTheLast(es[..|es| - 1], minInterval, id);
      RunKeepsInv(es[..|es| - 1], minInterval);
      StepReads(s, e, minInterval, id);
    }
  }

  lemma StepReads(s: State, e: Event, minInterval: Duration, id: Id)
    requires Keyed(s.targets) && Enabled(s, e)
    ensures var reading := ReadingOf(Apply(s, e, minInterval).targets, id);
      if e.Answer? && s.flights[e.i].probe.id == id && SameDeclaration(s.targets, s.flights[e.i].probe) then
        reading == Some(Reading(e.at, e.healthy))
      else if e == Untrack(id) || (e.Track? && e.p.id == id && !e.p.probed) then reading == None
      else reading == ReadingOf(s.targets, id)
  {
  }

  /** And it is: dropped and registered again under a request, a Process has two in flight. */
  lemma RetrackingCanDouble()
    ensures exists es :: Run(es, MIN_INTERVAL).Some? && InFlight(Run(es, MIN_INTERVAL).value.flights, "p") == 2
  {
    var es, s, sent := RequestOfEach();
    CountIfAll(s.flights, (f: Flight) => f.probe.id == "p");
  }

  /** A request of the registration that was dropped, and one of the registration after it. */
  lemma RequestOfEach() returns (es: seq<Event>, s: State, sent: Probe)
    ensures Run(es, MIN_INTERVAL) == Some(s) && s.flights == [Flight(sent, 0), Flight(sent, 0)]
    ensures s.targets == map["p" := sent] && s.loop.Asleep? && IsFirst(sent)
  {
    var es3: seq<Event>, s3: State;
    es3, s3, sent := RetrackUnderARequest();
    var s5 := Snoc(es3, SendWake, s3);
    var s6 := Snoc(es3 + [SendWake], TakeWake, s5);
    s := SnocLook(es3 + [SendWake] + [TakeWake], 0, sent.(running := false, next := 0), s6);
    es := es3 + [SendWake] + [TakeWake] + [Look(0, [sent], IDLE_WAIT)];
    assert s.flights == [Flight(sent, 0), Flight(sent, 0)];
  }

  /**
   Even one registration can have two: the answer to the request it was not there for takes its mark
   away. With no call but that answer, both requests in flight were sent for the registration there is.
   */
  lemma ARegistrationCanDouble() returns (es: seq<Event>, more: seq<Event>)
    ensures Run(es, MIN_INTERVAL).Some? && Run(es + more, MIN_INTERVAL).Some?
    ensures more != [] && more[0].Answer? && more[0].i == 0
      && forall e <- more[1..] :: e.SendWake? || e.TakeWake? || e.Look?
    ensures var s, s' := Run(es, MIN_INTERVAL).value, Run(es + more, MIN_INTERVAL).value;
      |s.flights| == 2 && |s'.flights| == 2 && s'.flights[0] == s.flights[1]
        && s'.flights[0].probe.id == s'.flights[1].probe.id
  {
    hide Every, LookOver, IsSweep;
    var s: State, sent: Probe;
    es, s, sent := RequestOfEach();
    var late := Answer(0, 0, true);
    var s1 := Snoc(es, late, s);
    var waiting := sent.(running := false, healthy := true, probed := true);
    assert s1.targets == map["p" := waiting] && s1.flights == [Flight(sent, 0)];
    var s2 := Snoc(es + [late], SendWake, s1);
    var s3 := Snoc(es + [late] + [SendWake], TakeWake, s2);
    var look := Look(DEFAULT_INTERVAL, [Swept(waiting, DEFAULT_INTERVAL)], IDLE_WAIT);
    var s4 := SnocLook(es + [late] + [SendWake] + [TakeWake], DEFAULT_INTERVAL, waiting, s3);
    more := [late, SendWake, TakeWake, look];
    assert es + more == es + [late] + [SendWake] + [TakeWake] + [look];
  }

  predicate IsFirst(sent: Probe) {
    sent == Probe("p", sent.endpoint, sent.path, DEFAULT_INTERVAL, DEFAULT_INTERVAL, true, 0, false, false)
  }

  lemma RetrackUnderARequest() returns (es: seq<Event>, s: State, sent: Probe)
    ensures Run(es, MIN_INTERVAL) == Some(s)
    ensures IsFirst(sent)
    ensures s.targets == map["p" := sent.(running := false, next := 0)]
    ensures s.flights == [Flight(sent, 0)] && s.loop.Asleep? && s.waking > 0
  {
    var p := Registration("p", true, "http://127.0.0.1:1", "/", Unspelled);
    sent := Probe("p", p.endpoint, p.path, DEFAULT_INTERVAL, DEFAULT_INTERVAL, true, 0, false, false);
    var s1 := Snoc([], Track(p, 0), START);
    var s2 := SnocLook([Track(p, 0)], 0, sent.(running := false, next := 0), s1);
    es := [Track(p, 0)] + [Look(0, [sent], IDLE_WAIT)];
    var s3 := Snoc(es, Untrack("p"), s2);
    assert s3.flights == [Flight(sent, 0)];
    s := Snoc(es + [Untrack("p")], Track(p, 0), s3);
    es := es + [Untrack("p")] + [Track(p, 0)];
  }

  /** The loop looks at a single target, which is due. */
  lemma SnocLook(es: seq<Event>, now: Time, waiting: Probe, s: State) returns (s': State)
    requires Run(es, MIN_INTERVAL) == Some(s) && s.loop.Awake?
    requires waiting.id == "p" && s.targets == map["p" := waiting] && IsDue(waiting, now)
    ensures var look := Look(now, [Swept(waiting, now)], IDLE_WAIT);
      s' == Apply(s, look, MIN_INTERVAL) && Run(es + [look], MIN_INTERVAL) == Some(s')
    ensures s'.flights == s.flights + [Flight(Swept(waiting, now), now)]
      && s'.targets == map["p" := Swept(waiting, now)]
    ensures s'.loop.Asleep? && s'.waking == s.waking
  {
    var sent := Swept(waiting, now);
    assert SweptAll(s.targets, now) == map["p" := sent];
    assert [sent][..0] == [];
    assert SentAll([sent], now) == [Flight(sent, now)];
    s' := Snoc(es, Look(now, [sent], IDLE_WAIT), s);
  }

  lemma Snoc(es: seq<Event>, e: Event, s: State) returns (s': State)
    requires Run(es, MIN_INTERVAL) == Some(s) && Enabled(s, e)
    ensures s' == Apply(s, e, MIN_INTERVAL) && Run(es + [e], MIN_INTERVAL) == Some(s')
  {
    assert (es + [e])[..|es + [e]| - 1] == es;
    s' := Apply(s, e, MIN_INTERVAL);
  }
}
