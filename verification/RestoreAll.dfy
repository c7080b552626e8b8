/** What a restore does with every registration, and what it says it did. */
module RestoreAll {
  import opened Collections
  import opened Runtime
  import opened Mounts
  import opened Pods
  import opened Restore

  /**
   A registration, with what the world says of it at this boot: what its mounts resolve to, whether
   its secrets do, whether its name still proves, and whether a command line could be written again. leaf
   is whether it has a ceiling of its own by now, and again what its mounts come to once more.
   */
  datatype Registration = Registration(
    id: Id, owner: string, kit: bool, job: bool, name: Name, pod: Name, units: seq<Declared>, written: bool,
    resolved: Option<seq<Resolved>>, secrets: bool, hostname: bool, made: bool, leaf: bool,
    again: Option<seq<Resolved>>)
  {
    predicate Composed() {
      pod != "" && |units| > 1
    }
  }

  datatype Counts = Counts(
    started: nat, running: nat, missing: nat, failed: nat, legacy: nat, healed: nat, kit: nat, scheduled: nat)
  {
    function Add(outcome: Outcome): Counts {
      match outcome
      case WasPlaced => this.(started := started + 1)
      case WasRunning => this.(started := started + 1, running := running + 1)
      case WasHealed => this.(started := started + 1, healed := healed + 1)
      case HasFailed => this.(failed := failed + 1)
      case IsMissing => this.(missing := missing + 1)
    }

    function Considered(): nat {
      started + missing + failed + legacy + kit + scheduled
    }

    /** The owner's counts added in, which are only ever of these five. */
    function Plus(owned: Counts): Counts {
      this.(
        started := started + owned.started, running := running + owned.running, missing := missing + owned.missing,
        failed := failed + owned.failed, healed := healed + owned.healed)
    }
  }

  const NONE := Counts(0, 0, 0, 0, 0, 0, 0, 0)

  /** What an outside eye sees of a host. */
  datatype Scene = Scene(
    containers: map<Name, Container>, pods: set<Name>, rows: map<Id, Token>, log: seq<Entry>, misses: Misses,
    against: nat, finals: nat)

  ghost function See(h: Host): Scene
    reads h
  {
    Scene(h.containers, h.pods, h.rows, h.log, h.misses, h.against, h.finals)
  }

  ghost predicate LeftIn(a: Scene, b: Scene) {
    Left(a.misses, b.misses)
  }

  /** Every unit of a composed Process runs in its own pod, holding what was validated. */
  ghost predicate PodUp(a: Scene, b: Scene, p: Registration, outcome: Outcome) {
    exists units :: Legal(p.units, units) &&
      if outcome.WasRunning? then b == a && StillHolds(b.containers, units)
      else exists token ::
        AllRunning(b.containers, p.pod, units, token) && CaughtUp(a.rows, b.rows, p.id, token, a.misses, b.misses)
  }

  /** Unregistered, unless the store missed this very write. */
  ghost predicate Dropped(a: Scene, b: Scene, id: Id) {
    b == a.(rows := a.rows - {id})
      || b == a.(misses := a.misses.(store := a.misses.store + 1), against := a.against + 1)
  }

  /** The pod is as it was, or what is left of it is where a call that erred removed some; and nothing was made. */
  ghost predicate PodUntouched(p: Registration, a: Scene, b: Scene) {
    && LessOf(a.containers, b.containers, p.pod) && a.pods - {p.pod} <= b.pods <= a.pods && b.log == a.log
    && (!Late(a.misses, b.misses) ==> b.containers == a.containers && b.pods == a.pods)
  }

  ghost predicate PodMeans(p: Registration, outcome: Outcome, a: Scene, b: Scene) {
    Outside(b.containers, p.pod) == Outside(a.containers, p.pod) &&
    match outcome
    case IsMissing => p.pod !in a.pods && Dropped(a, b, p.id)
    case HasFailed =>
      && b.rows == a.rows && b.misses.store == a.misses.store
      && (PodUntouched(p, a, b) || LeftIn(a, b) ||
          (p.pod !in b.pods && forall name <- b.containers :: b.containers[name].pod != p.pod))
    case WasHealed => false
    case _ => PodUp(a, b, p, outcome)
  }

  /** Only the container of this Process, or the one it replaced, is another. */
  ghost predicate OnlyIts(a: Scene, b: Scene, name: Name) {
    b.containers - {name, Aside(name)} == a.containers - {name, Aside(name)}
  }

  /** c is the container that was there, or the same one up after all, by a start that erred. */
  ghost predicate StillIt(c: Container, was: Container, late: bool) {
    c == was || (late && c == was.(phase := Running, ns := c.ns))
  }

  /**
   A Process without mounts whose container would not start, and was not healed: it is there, under its
   name unless putting it back failed or setting it aside had erred, and as it was unless a start had.
   */
  ghost predicate NotLost(a: Scene, b: Scene, name: Name) {
    && name in a.containers
    && (|| (name in b.containers && StillIt(b.containers[name], a.containers[name], Late(a.misses, b.misses))
            && b.containers - {name} == a.containers - {name})
        || ((LeftIn(a, b) || Late(a.misses, b.misses)) && Aside(name) in b.containers
            && StillIt(b.containers[Aside(name)], a.containers[name], Late(a.misses, b.misses))))
  }

  /** What everything that has to prove before a start, proves now. */
  predicate Proves(p: Registration) {
    p.resolved != None && p.secrets && p.hostname
  }

  ghost predicate SingleFailed(p: Registration, a: Scene, b: Scene) {
    && b.rows == a.rows && b.misses.store == a.misses.store && b.pods == a.pods
    && OnlyIts(a, b, p.name) && RanOnlyLate(a.log, b.log, p.name, a.misses, b.misses)
    && (b == a.(against := b.against, finals := b.finals) || (Proves(p) &&
          if p.resolved.value != [] then
            b.containers == a.containers || TornDown(a.containers, b.containers, p.name, a.misses, b.misses)
          else NotLost(a, b, p.name)))
  }

  ghost predicate SingleMeans(p: Registration, outcome: Outcome, a: Scene, b: Scene) {
    match outcome
    case IsMissing => p.name !in a.containers && Dropped(a, b, p.id)
    case HasFailed => SingleFailed(p, a, b)
    case WasRunning => Proves(p) && b == a && UpWith(b.containers, p.name, p.resolved.value)
    case WasPlaced =>
      && Proves(p) && OnlyIts(a, b, p.name) && UpWith(b.containers, p.name, p.resolved.value)
      && (CaughtUp(a.rows, b.rows, p.id, b.containers[p.name].token, a.misses, b.misses) ||
          (b.rows == a.rows && p.name in a.containers && b.containers[p.name].token == a.containers[p.name].token))
    case WasHealed =>
      && Proves(p) && p.resolved == Some([]) && !p.written
      && OnlyIts(a, b, p.name) && UpWith(b.containers, p.name, [])
      && CaughtUp(a.rows, b.rows, p.id, b.containers[p.name].token, a.misses, b.misses)
      && (Aside(p.name) in b.containers ==> LeftIn(a, b))
  }

  /** What one container comes to where nothing stands against it. */
  ghost function SingleDue(p: Registration, a: Scene): Outcome {
    if !Proves(p) then HasFailed
    else if p.name !in a.containers then IsMissing
    else if p.resolved.value != [] then MountedDue(a.containers[p.name], p.resolved.value, p.made)
    else if Up(a.containers[p.name]) then WasRunning
    else WasPlaced
  }

  ghost function Due(p: Registration, a: Scene): Outcome {
    if p.Composed() then PodDue(p.units, p.made, p.pod, a.containers, a.pods) else SingleDue(p, a)
  }

  /**
   What a Process comes to whose start by name was refused, that refusal being all that stood against it and
   not for want of time: it is moved under a ceiling of its own, where that is what it may have failed for.
   */
  ghost function RefusedDue(p: Registration, a: Scene): Outcome {
    if !p.written && Healable(a.containers, p.name, p.leaf, p.again, p.made) then WasHealed else HasFailed
  }

  /** The container is one that is started by name, and is not up. */
  ghost predicate IsByName(p: Registration, a: Scene) {
    Proves(p) && p.resolved.value == [] && p.name in a.containers && !Up(a.containers[p.name])
  }

  ghost predicate AsRefused(p: Registration, outcome: Outcome, a: Scene, b: Scene) {
    IsByName(p, a) && b.against == a.against + 1 && b.finals == a.finals ==> outcome == RefusedDue(p, a)
  }

  /** The outcome is the one that is due, unless something stood against it in this very step. */
  ghost predicate AsDue(p: Registration, outcome: Outcome, a: Scene, b: Scene) {
    && a.against <= b.against && (b.against == a.against ==> outcome == Due(p, a))
    && (!p.Composed() ==> AsRefused(p, outcome, a, b))
  }

  /** What each word in the counts means about the host before and after. */
  ghost predicate Means(p: Registration, outcome: Outcome, a: Scene, b: Scene) {
    && AsDue(p, outcome, a, b)
    && if p.Composed() then PodMeans(p, outcome, a, b) else SingleMeans(p, outcome, a, b)
  }

  method RestoreComposed(h: Host, p: Registration) returns (outcome: Outcome)
    requires h.Valid() && p.Composed()
    modifies h
    ensures h.Valid() && Means(p, outcome, old(See(h)), See(h))
  {
    ghost var units, token;
    ghost var before := See(h);
    outcome, units, token := RestorePod(h, p.id, p.pod, p.units, p.made);
    if outcome.WasPlaced? {
      assert AllRunning(See(h).containers, p.pod, units, token)
        && CaughtUp(before.rows, See(h).rows, p.id, token, before.misses, h.misses);
      assert Legal(p.units, units);
    }
    if outcome.IsMissing? {
      var dropped := h.Unregister(p.id);
    }
  }

  /** A start by name that erred, and a heal after it that did not succeed, lose no container. */
  lemma HealLosesNothing(a: Scene, mid: map<Name, Container>, b: Scene, name: Name)
    requires name in a.containers && mid.Keys == a.containers.Keys && mid - {name} == a.containers - {name}
    requires StillIt(mid[name], a.containers[name], Late(a.misses, b.misses))
    requires PutBack(mid, b.containers, name, a.misses, b.misses)
    ensures NotLost(a, b, name)
  {
  }

  /** The container is started by name, which is what a Process without mounts, or without a container, comes to. */
  method StartByName(h: Host, p: Registration) returns (outcome: Outcome)
    requires h.Valid() && Proves(p)
    requires p.resolved.value != [] ==> p.name !in h.containers
    modifies h
    ensures h.Valid() && SingleMeans(p, outcome, old(See(h)), See(h))
    ensures h.against >= old(h.against) && (h.against == old(h.against) ==> outcome == SingleDue(p, old(See(h))))
    ensures AsRefused(p, outcome, old(See(h)), See(h))
  {
    ghost var ran;
    var err;
    err, ran := h.Start(p.name, p.resolved.value);
    if ran {
      SoundAfterStarted(old(h.log), p.name, h.containers[p.name].ns, []);
      OnlyOne(old(h.containers), p.name, h.containers[p.name]);
    }
    if err == None {
      return WasPlaced;
    }
    if err == Some(AlreadyRunning) {
      return WasRunning;
    }
    if err == Some(NoContainer) {
      var dropped := h.Unregister(p.id);
      return IsMissing;
    }
    if p.written || err == Some(TimedOut) {
      return HasFailed;
    }
    outcome := HealByName(h, p, old(See(h)));
  }

  /** A start by name was refused, and not for want of time: the container is as it was, or up after all. */
  ghost predicate WasRefused(p: Registration, a: Scene, b: Scene) {
    && IsByName(p, a) && b.against == a.against + 1 && b.finals == a.finals
    && b.rows == a.rows && b.pods == a.pods && b.misses.store == a.misses.store && Onward(a.misses, b.misses)
    && b.containers.Keys == a.containers.Keys && b.containers - {p.name} == a.containers - {p.name}
    && StillIt(b.containers[p.name], a.containers[p.name], Late(a.misses, b.misses))
    && RanOnlyLate(a.log, b.log, p.name, a.misses, b.misses)
  }

  /** What is left to try is the ceiling. */
  method HealByName(h: Host, p: Registration, ghost a: Scene) returns (outcome: Outcome)
    requires h.Valid() && !p.written && WasRefused(p, a, See(h))
    modifies h
    ensures h.Valid() && SingleMeans(p, outcome, a, See(h))
    ensures h.against > a.against && AsRefused(p, outcome, a, See(h))
  {
    hide RanOnlyLate, NotLost;
    ghost var mid, midLog, midMisses := h.containers, h.log, h.misses;
    ghost var token;
    var healed, failed;
    healed, failed, token := HealCeiling(h, p.id, p.name, p.leaf, p.again, p.made);
    SameWithout(a.containers, mid, p.name, Aside(p.name));
    if !healed {
      PutBackSince(mid, h.containers, p.name, a.misses, midMisses, h.misses);
      HealLosesNothing(a, mid, See(h), p.name);
      RanSince(a.log, midLog, h.log, p.name, a.misses, midMisses, h.misses);
    }
    outcome := if healed then WasHealed else HasFailed;
  }

  lemma OnlyOne(a: map<Name, Container>, name: Name, c: Container)
    requires name in a
    ensures a[name := c] - {name} == a - {name}
    ensures a[name := c] - {name, Aside(name)} == a - {name, Aside(name)}
  {
  }

  lemma PutBackSince(mid: map<Name, Container>, after: map<Name, Container>, name: Name, was: Misses, then_: Misses,
      now: Misses)
    requires PutBack(mid, after, name, then_, now) && Onward(was, then_)
    ensures PutBack(mid, after, name, was, now)
  {
  }

  lemma RanSince(oldLog: seq<Entry>, midLog: seq<Entry>, log: seq<Entry>, name: Name, was: Misses, then_: Misses,
      now: Misses)
    requires RanOnlyLate(oldLog, midLog, name, was, then_) && RanOnlyLate(midLog, log, name, then_, now)
    requires Onward(was, then_) && Onward(then_, now)
    ensures RanOnlyLate(oldLog, log, name, was, now)
  {
    forall i | |oldLog| <= i < |log|
      ensures log[i].name == name && (log[i].Started? ==> Late(was, now))
    {
      if i < |midLog| {
        assert midLog[i] in midLog[|oldLog|..];
        assert log[i] == midLog[i];
      } else {
        assert log[i] in log[|midLog|..];
      }
    }
  }

  method RestoreSingle(h: Host, p: Registration) returns (outcome: Outcome)
    requires h.Valid()
    modifies h
    ensures h.Valid() && SingleMeans(p, outcome, old(See(h)), See(h))
    ensures h.against >= old(h.against) && (h.against == old(h.against) ==> outcome == SingleDue(p, old(See(h))))
    ensures AsRefused(p, outcome, old(See(h)), See(h))
  {
    if !Proves(p) {
      return HasFailed;
    }
    if p.resolved.value != [] {
      var handled, came := RestoreMounted(h, p.id, p.name, p.resolved.value, p.made);
      if handled {
        SameWithout(old(h.containers), h.containers, p.name, Aside(p.name));
        return came;
      }
    }
    outcome := StartByName(h, p);
  }

  /** The counts that a list of outcomes comes to. */
  function Tally(outcomes: seq<Outcome>): Counts {
    if outcomes == [] then NONE else Tally(outcomes[..|outcomes| - 1]).Add(outcomes[|outcomes| - 1])
  }

  /** Every registration was brought back by one step of the host, one after the other. */
  ghost predicate Trail(ps: seq<Registration>, outcomes: seq<Outcome>, scenes: seq<Scene>) {
    && |outcomes| == |ps| && |scenes| == |ps| + 1
    && forall k | 0 <= k < |ps| :: Means(ps[k], outcomes[k], scenes[k], scenes[k + 1])
  }

  lemma {:induction false} TrailSnoc(ps: seq<Registration>, outcomes: seq<Outcome>, scenes: seq<Scene>, p: Registration,
      outcome: Outcome, after: Scene)
    requires Trail(ps, outcomes, scenes) && Means(p, outcome, scenes[|ps|], after)
    ensures Trail(ps + [p], outcomes + [outcome], scenes + [after])
    ensures Tally(outcomes + [outcome]) == Tally(outcomes).Add(outcome)
  {
    var more := outcomes + [outcome];
    assert more[..|more| - 1] == outcomes;
    var all := ps + [p];
    var seen := scenes + [after];
    forall k | 0 <= k < |all|
      ensures Means(all[k], more[k], seen[k], seen[k + 1])
    {
    }
  }

  /** An owner nobody can look up stands against each of its Processes: all fail, with nothing touched. */
  lemma NobodyToLookUp(p: Registration, a: Scene, b: Scene)
    requires b == a.(against := a.against + 1, finals := a.finals + 1)
    ensures Means(p, HasFailed, a, b)
  {
  }

  lemma {:induction false} NoneOfTheirs(ps: seq<Registration>, at: Scene)
      returns (outcomes: seq<Outcome>, scenes: seq<Scene>)
    ensures Trail(ps, outcomes, scenes) && scenes[0] == at
      && scenes[|ps|] == at.(against := at.against + |ps|, finals := at.finals + |ps|)
    ensures Tally(outcomes) == NONE.(failed := |ps|)
  {
    if ps == [] {
      outcomes, scenes := [], [at];
    } else {
      var init := ps[..|ps| - 1];
      outcomes, scenes := NoneOfTheirs(init, at);
      var after := at.(against := at.against + |ps|, finals := at.finals + |ps|);
      NobodyToLookUp(ps[|ps| - 1], scenes[|init|], after);
      TrailSnoc(init, outcomes, scenes, ps[|ps| - 1], HasFailed, after);
      outcomes, scenes := outcomes + [HasFailed], scenes + [after];
      assert init + [ps[|ps| - 1]] == ps;
    }
  }

  ghost method StandAgainstAll(h: Host, n: nat)
    modifies h`against, h`finals
    ensures h.against == old(h.against) + n && h.finals == old(h.finals) + n
  {
    h.against, h.finals := h.against + n, h.finals + n;
  }

  /** One member's Processes, one after the other. member is whether the owner could be looked up and is one. */
  method RestoreOwner(h: Host, ps: seq<Registration>, member: bool)
    returns (counts: Counts, ghost outcomes: seq<Outcome>, ghost scenes: seq<Scene>)
    requires h.Valid()
    modifies h
    ensures h.Valid()
    ensures Trail(ps, outcomes, scenes) && scenes[0] == old(See(h)) && scenes[|ps|] == See(h)
    ensures counts == Tally(outcomes)
    ensures !member ==>
      counts == NONE.(failed := |ps|)
        && See(h) == old(See(h)).(against := old(h.against) + |ps|, finals := old(h.finals) + |ps|)
  {
    if !member {
      outcomes, scenes := NoneOfTheirs(ps, See(h));
      StandAgainstAll(h, |ps|);
      return NONE.(failed := |ps|), outcomes, scenes;
    }
    counts, outcomes, scenes := NONE, [], [See(h)];
    for i := 0 to |ps|
      invariant h.Valid()
      invariant Trail(ps[..i], outcomes, scenes) && scenes[0] == old(See(h)) && scenes[i] == See(h)
      invariant counts == Tally(outcomes)
    {
      var outcome: Outcome;
      if ps[i].Composed() {
        outcome := RestoreComposed(h, ps[i]);
      } else {
        outcome := RestoreSingle(h, ps[i]);
      }
      TrailSnoc(ps[..i], outcomes, scenes, ps[i], outcome, See(h));
      assert ps[..i + 1] == ps[..i] + [ps[i]];
      counts, outcomes, scenes := counts.Add(outcome), outcomes + [outcome], scenes + [See(h)];
    }
    assert ps[..|ps|] == ps;
  }

  /** What a restore does with a registration before any container is touched, in the order it asks. */
  datatype Sort = LeftToTheRemoval | OfAKit | OfNoContainer | OfAJob | ToBringBack

  function SortOf(p: Registration, removing: set<string>): Sort {
    if p.owner in removing then LeftToTheRemoval
    else if p.kit then OfAKit
    else if p.name == "" then OfNoContainer
    else if p.job then OfAJob
    else ToBringBack
  }

  function CountSort(ps: seq<Registration>, removing: set<string>, which: Sort): nat {
    if ps == [] then 0
    else
      CountSort(ps[..|ps| - 1], removing, which) + if SortOf(ps[|ps| - 1], removing) == which then 1 else 0
  }

  /** The registrations to bring back of these owners, as they are listed. */
  function Theirs(ps: seq<Registration>, removing: set<string>, owners: set<string>): seq<Registration> {
    if ps == [] then []
    else
      var p := ps[|ps| - 1];
      Theirs(ps[..|ps| - 1], removing, owners)
        + if SortOf(p, removing).ToBringBack? && p.owner in owners then [p] else []
  }

  lemma {:induction false} TheirsSplits(ps: seq<Registration>, removing: set<string>, owners: set<string>,
      owner: string)
    requires owner !in owners
    ensures multiset(Theirs(ps, removing, owners + {owner}))
      == multiset(Theirs(ps, removing, owners)) + multiset(Theirs(ps, removing, {owner}))
  {
    if ps != [] {
      TheirsSplits(ps[..|ps| - 1], removing, owners, owner);
    }
  }

  lemma {:induction false} TheirsOfNobody(ps: seq<Registration>, removing: set<string>)
    ensures Theirs(ps, removing, {}) == []
  {
    if ps != [] {
      TheirsOfNobody(ps[..|ps| - 1], removing);
    }
  }

  ghost predicate Covers(ps: seq<Registration>, removing: set<string>, owners: set<string>) {
    forall p <- ps | SortOf(p, removing).ToBringBack? :: p.owner in owners
  }

  lemma {:induction false} TheirsOfAll(ps: seq<Registration>, removing: set<string>, owners: set<string>)
    requires Covers(ps, removing, owners)
    ensures |Theirs(ps, removing, owners)| == CountSort(ps, removing, ToBringBack)
  {
    if ps != [] {
      assert ps[|ps| - 1] in ps;
      TheirsOfAll(ps[..|ps| - 1], removing, owners);
    }
  }

  lemma {:induction false} EverySortOnce(ps: seq<Registration>, removing: set<string>)
    ensures CountSort(ps, removing, LeftToTheRemoval) + CountSort(ps, removing, OfAKit)
      + CountSort(ps, removing, OfNoContainer)
      + CountSort(ps, removing, OfAJob) + CountSort(ps, removing, ToBringBack) == |ps|
  {
    if ps != [] {
      EverySortOnce(ps[..|ps| - 1], removing);
    }
  }

  function CountOutcome(outcomes: seq<Outcome>, which: Outcome): nat {
    if outcomes == [] then 0
    else CountOutcome(outcomes[..|outcomes| - 1], which) + if outcomes[|outcomes| - 1] == which then 1 else 0
  }

  /** Each count is how many came to what it is named for; the running and the healed are among the started. */
  lemma {:induction false} TallyCounts(outcomes: seq<Outcome>)
    ensures var c := Tally(outcomes);
      && c.running == CountOutcome(outcomes, WasRunning) && c.healed == CountOutcome(outcomes, WasHealed)
      && c.started == CountOutcome(outcomes, WasPlaced) + c.running + c.healed
      && c.missing == CountOutcome(outcomes, IsMissing) && c.failed == CountOutcome(outcomes, HasFailed)
      && c.legacy == 0 && c.kit == 0 && c.scheduled == 0
  {
    if outcomes != [] {
      TallyCounts(outcomes[..|outcomes| - 1]);
    }
  }

  /** What the first pass makes of a registration, in its own words. */
  lemma SortsMean(p: Registration, removing: set<string>)
    ensures SortOf(p, removing).LeftToTheRemoval? <==> p.owner in removing
    ensures SortOf(p, removing).OfAKit? <==> p.kit && p.owner !in removing
    ensures SortOf(p, removing).OfNoContainer? <==> p.name == "" && !p.kit && p.owner !in removing
    ensures SortOf(p, removing).OfAJob? <==> p.job && p.name != "" && !p.kit && p.owner !in removing
    ensures SortOf(p, removing).ToBringBack? <==> !p.job && p.name != "" && !p.kit && p.owner !in removing
  {
  }

  /**
   Exactly the registrations that are no job, name a container, and are nobody else's to bring back,
   are put by owner.
   */
  lemma {:induction false} BroughtBackExactly(ps: seq<Registration>, removing: set<string>, owner: string,
      p: Registration)
    ensures p in Theirs(ps, removing, {owner}) <==>
      p in ps && p.owner == owner && !p.job && p.name != "" && !p.kit && owner !in removing
  {
    if ps != [] {
      BroughtBackExactly(ps[..|ps| - 1], removing, owner, p);
      assert ps == ps[..|ps| - 1] + [ps[|ps| - 1]];
    }
  }

  lemma {:induction false} TallyAdds(outcomes: seq<Outcome>)
    ensures var c := Tally(outcomes);
      && c.started + c.missing + c.failed == |outcomes| && c.running + c.healed <= c.started
      && c.legacy == 0 && c.kit == 0 && c.scheduled == 0
  {
    if outcomes != [] {
      TallyAdds(outcomes[..|outcomes| - 1]);
    }
  }

  ghost function LegacyIds(ps: seq<Registration>, removing: set<string>): set<Id> {
    set p | p in ps && SortOf(p, removing).OfNoContainer? :: p.id
  }

  /**
   Exactly the registrations in gone went, and they name nothing; each such registration that is left
   was a write the store missed here.
   */
  ghost predicate OnlyLegacyGone(before: map<Id, Token>, after: map<Id, Token>, ps: seq<Registration>,
      removing: set<string>, gone: set<Id>, was: Misses, now: Misses)
  {
    && after == before - gone && gone <= LegacyIds(ps, removing)
    && now == was.(store := now.store) && |LegacyIds(ps, removing) - gone| <= now.store - was.store
  }

  ghost predicate CountsSorted(ps: seq<Registration>, removing: set<string>, counts: Counts) {
    counts == NONE.(kit := CountSort(ps, removing, OfAKit), legacy := CountSort(ps, removing, OfNoContainer),
      scheduled := CountSort(ps, removing, OfAJob))
  }

  ghost predicate Grouped(ps: seq<Registration>, removing: set<string>, byOwner: map<string, seq<Registration>>) {
    && (forall owner <- byOwner :: byOwner[owner] == Theirs(ps, removing, {owner}))
    && (forall owner | owner !in byOwner :: Theirs(ps, removing, {owner}) == [])
    && Covers(ps, removing, byOwner.Keys)
  }

  function CountedOne(p: Registration, removing: set<string>, counts: Counts): Counts {
    match SortOf(p, removing)
    case OfAKit => counts.(kit := counts.kit + 1)
    case OfNoContainer => counts.(legacy := counts.legacy + 1)
    case OfAJob => counts.(scheduled := counts.scheduled + 1)
    case _ => counts
  }

  function GroupedOne(p: Registration, removing: set<string>, byOwner: map<string, seq<Registration>>)
    : map<string, seq<Registration>>
  {
    if !SortOf(p, removing).ToBringBack? then byOwner
    else byOwner[p.owner := (if p.owner in byOwner then byOwner[p.owner] else []) + [p]]
  }

  lemma CountingOne(ps: seq<Registration>, p: Registration, removing: set<string>, counts: Counts)
    requires CountsSorted(ps, removing, counts)
    ensures CountsSorted(ps + [p], removing, CountedOne(p, removing, counts))
  {
    assert (ps + [p])[..|ps + [p]| - 1] == ps;
  }

  lemma TheirsOne(ps: seq<Registration>, p: Registration, removing: set<string>, owner: string)
    ensures Theirs(ps + [p], removing, {owner})
      == if SortOf(p, removing).ToBringBack? && owner == p.owner then Theirs(ps, removing, {owner}) + [p]
         else Theirs(ps, removing, {owner})
  {
    assert (ps + [p])[..|ps + [p]| - 1] == ps;
  }

  lemma GroupingOne(ps: seq<Registration>, p: Registration, removing: set<string>,
      byOwner: map<string, seq<Registration>>)
    requires Grouped(ps, removing, byOwner)
    ensures Grouped(ps + [p], removing, GroupedOne(p, removing, byOwner))
  {
    var more := GroupedOne(p, removing, byOwner);
    forall owner
      ensures Theirs(ps + [p], removing, {owner}) == if owner in more then more[owner] else []
    {
      TheirsOne(ps, p, removing, owner);
    }
  }

  /** One registration of the first pass. */
  method SortOne(h: Host, p: Registration, removing: set<string>, counts: Counts,
      byOwner: map<string, seq<Registration>>)
    returns (counts': Counts, byOwner': map<string, seq<Registration>>, dropped: bool)
    modifies h`rows, h`misses, h`against
    ensures h.against >= old(h.against)
    ensures counts' == CountedOne(p, removing, counts) && byOwner' == GroupedOne(p, removing, byOwner)
    ensures h.rows == (if SortOf(p, removing).OfNoContainer? && dropped then old(h.rows) - {p.id} else old(h.rows))
    ensures h.misses == if SortOf(p, removing).OfNoContainer? && !dropped
      then old(h.misses).(store := old(h.misses).store + 1) else old(h.misses)
  {
    counts', byOwner', dropped := counts, byOwner, false;
    if p.owner in removing {
      return;
    }
    if p.kit {
      counts' := counts.(kit := counts.kit + 1);
      return;
    }
    if p.name == "" {
      counts' := counts.(legacy := counts.legacy + 1);
      dropped := h.Unregister(p.id);
      return;
    }
    if p.job {
      counts' := counts.(scheduled := counts.scheduled + 1);
      return;
    }
    byOwner' := byOwner[p.owner := (if p.owner in byOwner then byOwner[p.owner] else []) + [p]];
  }

  lemma LegacyIdsOne(ps: seq<Registration>, p: Registration, removing: set<string>)
    ensures LegacyIds(ps + [p], removing) ==
      LegacyIds(ps, removing) + if SortOf(p, removing).OfNoContainer? then {p.id} else {}
  {
    assert p in ps + [p];
  }

  lemma LegacyDropped(before: map<Id, Token>, rows: map<Id, Token>, gone: set<Id>, id: Id)
    requires rows == before - gone
    ensures rows - {id} == before - (gone + {id})
  {
  }

  /** What one more registration does to the rows, where it names nothing. */
  lemma LegacyOne(before: map<Id, Token>, rows: map<Id, Token>, ps: seq<Registration>, p: Registration,
      removing: set<string>, gone: set<Id>, was: Misses, now: Misses)
    requires OnlyLegacyGone(before, rows, ps, removing, gone, was, now) && SortOf(p, removing).OfNoContainer?
    ensures OnlyLegacyGone(before, rows - {p.id}, ps + [p], removing, gone + {p.id}, was, now)
    ensures OnlyLegacyGone(before, rows, ps + [p], removing, gone, was, now.(store := now.store + 1))
  {
    var ids := LegacyIds(ps, removing);
    LegacyIdsOne(ps, p, removing);
    LegacyDropped(before, rows, gone, p.id);
    CountSubset(ids + {p.id} - (gone + {p.id}), ids - gone);
    CountSubset(ids + {p.id} - gone, (ids - gone) + {p.id});
  }

  lemma CountSubset(a: set<Id>, b: set<Id>)
    requires a <= b
    ensures |a| <= |b|
  {
    assert b == a + (b - a);
  }

  /** What the first pass made of the registrations ps. */
  ghost predicate Passed(before: map<Id, Token>, was: Misses, ps: seq<Registration>, removing: set<string>,
      rows: map<Id, Token>, now: Misses, counts: Counts, byOwner: map<string, seq<Registration>>, gone: set<Id>)
  {
    && OnlyLegacyGone(before, rows, ps, removing, gone, was, now)
    && CountsSorted(ps, removing, counts) && Grouped(ps, removing, byOwner)
  }

  lemma NothingPassed(before: map<Id, Token>, was: Misses, removing: set<string>)
    ensures Passed(before, was, [], removing, before, was, NONE, map[], {})
  {
    assert LegacyIds([], removing) == {} && before - {} == before;
  }

  method SortNext(h: Host, ghost before: map<Id, Token>, ghost was: Misses, ghost ps: seq<Registration>,
      p: Registration, removing: set<string>, counts: Counts, byOwner: map<string, seq<Registration>>,
      ghost gone: set<Id>)
    returns (counts': Counts, byOwner': map<string, seq<Registration>>, ghost gone': set<Id>)
    requires Passed(before, was, ps, removing, h.rows, h.misses, counts, byOwner, gone)
    modifies h`rows, h`misses, h`against
    ensures h.against >= old(h.against)
    ensures Passed(before, was, ps + [p], removing, h.rows, h.misses, counts', byOwner', gone')
  {
    CountingOne(ps, p, removing, counts);
    GroupingOne(ps, p, removing, byOwner);
    LegacyIdsOne(ps, p, removing);
    if SortOf(p, removing).OfNoContainer? {
      LegacyOne(before, h.rows, ps, p, removing, gone, was, h.misses);
    }
    var dropped;
    counts', byOwner', dropped := SortOne(h, p, removing, counts, byOwner);
    gone' := if SortOf(p, removing).OfNoContainer? && dropped then gone + {p.id} else gone;
  }

  /** The first pass over the list: what is not started is counted, and the rest is put by owner. */
  method SortThem(h: Host, ps: seq<Registration>, removing: set<string>)
    returns (counts: Counts, byOwner: map<string, seq<Registration>>, ghost gone: set<Id>)
    modifies h`rows, h`misses, h`against
    ensures h.against >= old(h.against)
    ensures Passed(old(h.rows), old(h.misses), ps, removing, h.rows, h.misses, counts, byOwner, gone)
  {
    hide Passed;
    counts, byOwner, gone := NONE, map[], {};
    NothingPassed(h.rows, h.misses, removing);
    assert ps[..0] == [];
    for i := 0 to |ps|
      invariant Passed(old(h.rows), old(h.misses), ps[..i], removing, h.rows, h.misses, counts, byOwner, gone)
      invariant h.against >= old(h.against)
    {
      counts, byOwner, gone := SortNext(h, old(h.rows), old(h.misses), ps[..i], ps[i], removing, counts, byOwner, gone);
      assert ps[..i + 1] == ps[..i] + [ps[i]];
    }
    assert ps[..|ps|] == ps;
  }

  lemma TrailConcat(ps: seq<Registration>, os: seq<Outcome>, ss: seq<Scene>, qs: seq<Registration>, ot: seq<Outcome>,
      st: seq<Scene>)
    requires Trail(ps, os, ss) && Trail(qs, ot, st) && ss[|ps|] == st[0]
    ensures Trail(ps + qs, os + ot, ss + st[1..])
  {
    var all, outcomes, scenes := ps + qs, os + ot, ss + st[1..];
    forall k | 0 <= k < |all|
      ensures Means(all[k], outcomes[k], scenes[k], scenes[k + 1])
    {
      if k < |ps| {
        assert Means(ps[k], os[k], ss[k], ss[k + 1]);
      } else {
        assert Means(qs[k - |ps|], ot[k - |ps|], st[k - |ps|], st[k - |ps| + 1]);
      }
    }
  }

  lemma PlusThenAdd(a: Counts, b: Counts, outcome: Outcome)
    ensures a.Plus(b).Add(outcome) == a.Plus(b.Add(outcome))
  {
  }

  lemma PlusNone(a: Counts)
    ensures a.Plus(NONE) == a
  {
  }

  lemma {:induction false} TallyConcat(os: seq<Outcome>, ot: seq<Outcome>)
    ensures Tally(os + ot) == Tally(os).Plus(Tally(ot))
    decreases |ot|
  {
    if ot == [] {
      assert os + ot == os;
      PlusNone(Tally(os));
    } else {
      var init, last := ot[..|ot| - 1], ot[|ot| - 1];
      var all := os + ot;
      assert all[..|all| - 1] == os + init && all[|all| - 1] == last;
      var a, b := Tally(os), Tally(init);
      TallyConcat(os, init);
      PlusThenAdd(a, b, last);
      assert Tally(all) == a.Plus(b).Add(last);
    }
  }

  ghost function Owners(ps: seq<Registration>): set<string> {
    set p | p in ps :: p.owner
  }

  lemma {:induction false} TheirsAgree(ps: seq<Registration>, removing: set<string>, a: set<string>, b: set<string>)
    requires Covers(ps, removing, a) && Covers(ps, removing, b)
    ensures Theirs(ps, removing, a) == Theirs(ps, removing, b)
  {
    if ps != [] {
      assert ps[|ps| - 1] in ps;
      TheirsAgree(ps[..|ps| - 1], removing, a, b);
    }
  }

  /** What is counted of a list of outcomes, beside what was counted before any of them. */
  function Beside(base: Counts, tally: Counts): Counts {
    tally.(kit := base.kit, legacy := base.legacy, scheduled := base.scheduled)
  }

  lemma PlusBeside(base: Counts, a: Counts, b: Counts)
    ensures Beside(base, a).Plus(b) == Beside(base, a.Plus(b))
  {
  }

  /** The owners in done are brought back, and the host is as now. */
  ghost predicate SoFar(ps: seq<Registration>, removing: set<string>, done: set<string>, base: Counts, counts: Counts,
      order: seq<Registration>, outcomes: seq<Outcome>, scenes: seq<Scene>, now: Scene)
  {
    && multiset(order) == multiset(Theirs(ps, removing, done))
    && Trail(order, outcomes, scenes) && scenes[|order|] == now
    && counts == Beside(base, Tally(outcomes))
  }

  lemma NobodySoFar(ps: seq<Registration>, removing: set<string>, base: Counts, now: Scene)
    requires base == Beside(base, NONE)
    ensures SoFar(ps, removing, {}, base, base, [], [], [now], now)
  {
    TheirsOfNobody(ps, removing);
  }

  /** One owner's Processes brought back after those of the owners before. */
  method RestoreNext(h: Host, ps: seq<Registration>, removing: set<string>, ghost done: set<string>, owner: string,
      theirs: seq<Registration>, counts: Counts, ghost base: Counts, ghost order: seq<Registration>,
      ghost outcomes: seq<Outcome>, ghost scenes: seq<Scene>)
    returns (after: Counts, ghost order': seq<Registration>, ghost outcomes': seq<Outcome>, ghost scenes': seq<Scene>)
    requires h.Valid() && owner !in done && theirs == Theirs(ps, removing, {owner})
    requires SoFar(ps, removing, done, base, counts, order, outcomes, scenes, See(h))
    modifies h
    ensures h.Valid() && scenes <= scenes'
    ensures SoFar(ps, removing, done + {owner}, base, after, order', outcomes', scenes', See(h))
  {
    hide Trail, Tally, Theirs;
    var member: bool := *;
    ghost var os, ss;
    var owned;
    owned, os, ss := RestoreOwner(h, theirs, member);
    TrailConcat(order, outcomes, scenes, theirs, os, ss);
    TallyConcat(outcomes, os);
    PlusBeside(base, Tally(outcomes), Tally(os));
    TheirsSplits(ps, removing, done, owner);
    after := counts.Plus(owned);
    order', outcomes', scenes' := order + theirs, outcomes + os, scenes + ss[1..];
  }

  /** What a restore that came to these outcomes says. */
  function Counted(ps: seq<Registration>, removing: set<string>, outcomes: seq<Outcome>): Counts {
    Tally(outcomes).(kit := CountSort(ps, removing, OfAKit), legacy := CountSort(ps, removing, OfNoContainer),
      scheduled := CountSort(ps, removing, OfAJob))
  }

  /** Every owner's Processes, one owner after the other. */
  method RestoreOwners(h: Host, ps: seq<Registration>, removing: set<string>, byOwner: map<string, seq<Registration>>,
      sorted: Counts)
    returns (counts: Counts, ghost order: seq<Registration>, ghost outcomes: seq<Outcome>, ghost scenes: seq<Scene>)
    requires h.Valid() && sorted == Beside(sorted, NONE)
    requires forall owner <- byOwner :: byOwner[owner] == Theirs(ps, removing, {owner})
    modifies h
    ensures h.Valid()
    ensures SoFar(ps, removing, byOwner.Keys, sorted, counts, order, outcomes, scenes, See(h))
      && scenes[0] == old(See(h))
  {
    counts, order, outcomes, scenes := sorted, [], [], [See(h)];
    NobodySoFar(ps, removing, sorted, See(h));
    var owners := Enumerate(byOwner);
    ghost var done: set<string> := {};
    for i := 0 to |owners|
      invariant h.Valid() && done == set k | 0 <= k < i :: owners[k]
      invariant SoFar(ps, removing, done, sorted, counts, order, outcomes, scenes, See(h)) && scenes[0] == old(See(h))
    {
      NotSeenBefore(owners, i);
      assert owners[i] in owners;
      counts, order, outcomes, scenes :=
        RestoreNext(h, ps, removing, done, owners[i], byOwner[owners[i]], counts, sorted, order, outcomes, scenes);
      done := done + {owners[i]};
    }
    AllSeen(owners, byOwner.Keys, done);
  }

  /**
   The whole restore. Nothing is read where the daemon was told not to, or where the store cannot be;
   otherwise every registration that is not a removal's is counted once, for what happened to it.
   */
  method RestoreHost(h: Host, list: Option<seq<Registration>>, noRestore: bool, removing: set<string>)
    returns (counts: Counts, ghost order: seq<Registration>, ghost outcomes: seq<Outcome>, ghost scenes: seq<Scene>,
      ghost gone: set<Id>)
    requires h.Valid()
    modifies h
    ensures h.Valid()
    ensures noRestore || list == None ==> counts == NONE && See(h) == old(See(h))
    ensures !noRestore && list != None ==>
      && multiset(order) == multiset(Theirs(list.value, removing, Owners(list.value)))
      && Trail(order, outcomes, scenes) && scenes[|order|] == See(h)
      && scenes[0] == old(See(h)).(rows := scenes[0].rows, misses := scenes[0].misses, against := scenes[0].against)
      && OnlyLegacyGone(old(h.rows), scenes[0].rows, list.value, removing, gone, old(h.misses), scenes[0].misses)
      && counts == Counted(list.value, removing, outcomes)
  {
    order, outcomes, scenes, gone := [], [], [See(h)], {};
    if noRestore || list == None {
      return NONE, order, outcomes, scenes, gone;
    }
    var byOwner;
    counts, byOwner, gone := SortThem(h, list.value, removing);
    counts, order, outcomes, scenes := RestoreOwners(h, list.value, removing, byOwner, counts);
    TheirsAgree(list.value, removing, byOwner.Keys, Owners(list.value));
  }

  /** Every registration that is not a removal's is in exactly one of six counts. */
  lemma EveryRegistrationCountedOnce(ps: seq<Registration>, removing: set<string>, order: seq<Registration>,
      outcomes: seq<Outcome>, scenes: seq<Scene>)
    requires multiset(order) == multiset(Theirs(ps, removing, Owners(ps))) && Trail(order, outcomes, scenes)
    ensures var counts := Counted(ps, removing, outcomes);
      && counts.Considered() == |ps| - CountSort(ps, removing, LeftToTheRemoval)
      && counts.running == CountOutcome(outcomes, WasRunning) && counts.healed == CountOutcome(outcomes, WasHealed)
      && counts.started == CountOutcome(outcomes, WasPlaced) + counts.running + counts.healed
      && counts.missing == CountOutcome(outcomes, IsMissing) && counts.failed == CountOutcome(outcomes, HasFailed)
      && counts.running + counts.healed <= counts.started
  {
    EverySortOnce(ps, removing);
    TheirsOfAll(ps, removing, Owners(ps));
    assert |multiset(order)| == |multiset(Theirs(ps, removing, Owners(ps)))|;
    TallyAdds(outcomes);
    TallyCounts(outcomes);
  }

  lemma {:induction false} AgainstGrows(ps: seq<Registration>, outcomes: seq<Outcome>, scenes: seq<Scene>, i: nat,
      j: nat)
    requires Trail(ps, outcomes, scenes) && i <= j <= |ps|
    ensures scenes[i].against <= scenes[j].against
    decreases j
  {
    hide PodMeans, SingleMeans;
    if i < j {
      AgainstGrows(ps, outcomes, scenes, i, j - 1);
      assert Means(ps[j - 1], outcomes[j - 1], scenes[j - 1], scenes[j]);
    }
  }

  /** A restore that nothing stands against brings back all there is to bring back: each outcome is the one due. */
  lemma UndisturbedRestoreIsDue(ps: seq<Registration>, outcomes: seq<Outcome>, scenes: seq<Scene>, k: nat)
    requires Trail(ps, outcomes, scenes) && scenes[|ps|].against == scenes[0].against && k < |ps|
    ensures outcomes[k] == Due(ps[k], scenes[k])
  {
    AgainstGrows(ps, outcomes, scenes, 0, k);
    AgainstGrows(ps, outcomes, scenes, k + 1, |ps|);
    assert Means(ps[k], outcomes[k], scenes[k], scenes[k + 1]);
  }

  /** A container that is not this Process's: neither the one it names nor, for a pod, one of its pod. */
  predicate Anothers(p: Registration, name: Name, c: Container) {
    if p.Composed() then c.pod != p.pod else name != p.name && name != Aside(p.name)
  }

  lemma OthersAreLeft(p: Registration, outcome: Outcome, a: Scene, b: Scene, name: Name)
    requires Means(p, outcome, a, b) && name in a.containers && Anothers(p, name, a.containers[name])
    ensures name in b.containers && b.containers[name] == a.containers[name]
  {
    if p.Composed() {
      assert name in Outside(a.containers, p.pod);
      assert name in Outside(b.containers, p.pod);
    } else {
      assert OnlyIts(a, b, p.name);
      assert name in a.containers - {p.name, Aside(p.name)};
    }
  }

  /** What was brought back is as it was brought back when the restore ends. */
  lemma {:induction false} BroughtBackStays(ps: seq<Registration>, outcomes: seq<Outcome>, scenes: seq<Scene>,
      name: Name, i: nat, j: nat)
    requires Trail(ps, outcomes, scenes) && i <= j <= |ps|
    requires name in scenes[i].containers
    requires forall k | i <= k < j :: Anothers(ps[k], name, scenes[i].containers[name])
    ensures name in scenes[j].containers && scenes[j].containers[name] == scenes[i].containers[name]
    decreases j
  {
    if i < j {
      BroughtBackStays(ps, outcomes, scenes, name, i, j - 1);
      OthersAreLeft(ps[j - 1], outcomes[j - 1], scenes[j - 1], scenes[j], name);
    }
  }
}
