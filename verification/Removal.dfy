/**
 The job that removes a member: steps that each describe the state they want, cut short anywhere by
 the daemon stopping, and taken up again at the next boot or by an administrator asking again.
 */
module Removal {
  import opened Collections

  type Id = string
  type Name = string

  /**
   kit is a Process a run kit owns, which has no container here; neither has one without a name. A pod
   has its face as its container, and units are the containers of its other units.
   */
  datatype Registration = Registration(kit: bool, container: Name, units: set<Name>) {
    predicate Named() {
      !kit && container != ""
    }

    function Held(): set<Name> {
      if kit then {} else units + if container != "" then {container} else {}
    }
  }

  /** What is left of a member on this host. home is one that was not archived. */
  datatype Member = Member(
    containers: set<Name>, registrations: map<Id, Registration>,
    approvals: bool, builds: bool, secrets: bool, account: bool, home: bool, cgroups: bool)

  datatype Step = Processes | Registrations | Approvals | Builds | Secrets | Account | Archive | Cgroups

  datatype Record = Removing | Removed | Failed(step: Step)

  /** What a step sets out to do is done. Of a registration, the step for the containers knows its own alone. */
  predicate IsDone(registered: map<Id, Registration>, m: Member, step: Step) {
    match step
    case Processes =>
      forall id <- registered :: registered[id].Named() ==> registered[id].container !in m.containers
    case Registrations => m.registrations == map[]
    case Approvals => !m.approvals
    case Builds => !m.builds
    case Secrets => !m.secrets
    case Account => !m.account
    case Archive => !m.home
    case Cgroups => !m.cgroups
  }

  function OnRecord(first: Option<Step>): Record {
    if first == None then Removed else Failed(first.value)
  }

  /** The job of one attempt that runs to its end, over calls that may each fail. */
  class MemberHost {
    var containers: set<Name>
    var registrations: map<Id, Registration>
    var approvals: bool
    var builds: bool
    var secrets: bool
    var account: bool
    var home: bool
    var cgroups: bool
    var record: Record
    var removing: bool
    var first: Option<Step>
    ghost var faults: set<Step>
    /** How many attempts ended without the store taking it. */
    ghost var unrecorded: nat
    /** How many calls were refused. */
    ghost var refusals: nat

    ghost function View(): Member
      reads this
    {
      Member(containers, registrations, approvals, builds, secrets, account, home, cgroups)
    }

    constructor (m: Member)
      ensures View() == m && record == Removing && !removing && first == None && faults == {} && unrecorded == 0
      ensures refusals == 0
    {
      containers, registrations, approvals, builds := m.containers, m.registrations, m.approvals, m.builds;
      secrets, account, home, cgroups := m.secrets, m.account, m.home, m.cgroups;
      record, removing, first, faults, unrecorded := Removing, false, None, {}, 0;
      refusals := 0;
    }

    /** A call to the store, the runtime or the host. */
    method Ask() returns (ok: bool)
      modifies this`refusals
      ensures refusals == old(refusals) + if ok then 0 else 1
    {
      ok := *;
      if !ok {
        refusals := refusals + 1;
      }
    }

    /** No step is noted as failed but for a call that was refused. */
    ghost predicate NoneForNothing(had: set<Step>, were: nat)
      reads this`faults, this`refusals
    {
      refusals >= were && (refusals == were ==> faults == had)
    }

    /** Marked by whoever comes first: of two asking at once, one gets true and runs the job. */
    method MarkRemoving() returns (marked: bool)
      modifies this`removing
      ensures removing && marked == !old(removing)
    {
      marked := !removing;
      removing := true;
    }

    /** The first step that failed is the one that is recorded. */
    ghost predicate Noted()
      reads this`first, this`faults
    {
      if first == None then faults == {} else first.value in faults
    }

    /** What failed stays noted, and the first stays the first. */
    ghost predicate Kept(was: Option<Step>, had: set<Step>)
      reads this`first, this`faults
    {
      Noted() && had <= faults && (was != None ==> first == was)
    }

    method Failed(at: Step)
      requires Noted()
      modifies this`first, this`faults
      ensures Noted() && faults == old(faults) + {at}
      ensures first == if old(first) == None then Some(at) else old(first)
    {
      if first == None {
        first := Some(at);
      }
      faults := faults + {at};
    }

    /** What one worker leaves: the container gone, or still there with the step noted as failed. */
    method RemoveOne(name: Name)
      requires Noted()
      modifies this`containers, this`first, this`faults, this`refusals
      ensures Kept(old(first), old(faults)) && NoneForNothing(old(faults), old(refusals))
      ensures containers == old(containers) - {name} || (containers == old(containers) && Processes in faults)
    {
      var stopped := Ask();
      if !stopped {
        Failed(Processes);
      }
      var removed := Ask();
      if removed {
        containers := containers - {name};
      } else {
        Failed(Processes);
      }
    }

    ghost predicate NoneOf(list: map<Id, Registration>)
      reads this`containers
    {
      forall id <- list :: list[id].Named() ==> list[id].container !in containers
    }

    method RemoveContainers(list: map<Id, Registration>)
      requires Noted()
      modifies this`containers, this`first, this`faults, this`refusals
      ensures Kept(old(first), old(faults)) && containers <= old(containers)
      ensures NoneForNothing(old(faults), old(refusals))
      ensures NoneOf(list) || Processes in faults || !account
    {
      var answered := Ask();
      if !answered {
        Failed(Processes);
        return;
      }
      if !account {
        return;
      }
      var ids := Enumerate(list);
      for i := 0 to |ids|
        invariant Kept(old(first), old(faults)) && containers <= old(containers)
        invariant NoneForNothing(old(faults), old(refusals))
        invariant Processes in faults ||
          forall k | 0 <= k < i :: list[ids[k]].Named() ==> list[ids[k]].container !in containers
      {
        assert ids[i] in ids;
        var p := list[ids[i]];
        if p.kit || p.container == "" {
          continue;
        }
        RemoveOne(p.container);
      }
    }

    /** The records: registrations, approvals, builds and secrets, each gone or noted as failed. */
    method RemoveRecords()
      requires Noted()
      modifies this`registrations, this`approvals, this`builds, this`secrets, this`first, this`faults, this`refusals
      ensures Kept(old(first), old(faults)) && NoneForNothing(old(faults), old(refusals))
      ensures registrations == map[] || (registrations == old(registrations) && Registrations in faults)
      ensures !approvals || Approvals in faults
      ensures !builds || Builds in faults
      ensures !secrets || Secrets in faults
    {
      var unregistered := Ask();
      if unregistered {
        registrations := map[];
      } else {
        Failed(Registrations);
      }
      var dropped := Ask();
      if dropped {
        approvals := false;
      } else {
        Failed(Approvals);
      }
      var forgotten := Ask();
      if forgotten {
        builds := false;
      } else {
        Failed(Builds);
      }
      var wiped := Ask();
      if wiped {
        secrets := false;
      } else {
        Failed(Secrets);
      }
    }

    /** The account and its home, in that order: what is left of a member who has no account is the home. */
    method RemoveAccount()
      requires Noted()
      modifies this`containers, this`account, this`home, this`first, this`faults, this`refusals
      ensures Kept(old(first), old(faults)) && containers <= old(containers)
      ensures NoneForNothing(old(faults), old(refusals))
      ensures !account || Account in faults
      ensures !home || Archive in faults || Account in faults
      ensures home != old(home) ==> !account
    {
      var found := Ask();
      if !found {
        Failed(Account);
        return;
      }
      if !account {
        var archived := Ask();
        if archived {
          home := false;
        } else {
          Failed(Archive);
        }
        return;
      }
      var some: set<Name> := *;
      containers := containers - some;
      var deleted := Ask();
      account := !deleted;
      if !deleted {
        Failed(Account);
        return;
      }
      var moved := Ask();
      if moved {
        home := false;
      } else {
        Failed(Account);
      }
    }

    method RemoveCgroups()
      requires Noted()
      modifies this`cgroups, this`first, this`faults, this`refusals
      ensures Kept(old(first), old(faults)) && NoneForNothing(old(faults), old(refusals))
      ensures !cgroups || Cgroups in faults
    {
      var swept := Ask();
      if swept {
        cgroups := false;
      } else {
        Failed(Cgroups);
      }
    }

    /** The record is how this attempt ended, or the store did not take this one and the record is as it was. */
    ghost predicate Ended(was: Record, missed: nat)
      reads this`record, this`first, this`unrecorded
    {
      || (record == OnRecord(first) && unrecorded == missed)
      || (record == was && unrecorded == missed + 1)
    }

    /** Records how the attempt ended, where the store takes it, and forgets the mark whatever it ended as. */
    method Finish()
      modifies this`record, this`removing, this`unrecorded, this`refusals
      ensures !removing && Ended(old(record), old(unrecorded))
      ensures refusals >= old(refusals) && (refusals == old(refusals) ==> record == OnRecord(first))
    {
      var recorded := Ask();
      if recorded {
        record := OnRecord(first);
      } else {
        unrecorded := unrecorded + 1;
      }
      removing := false;
    }

    /** What the member's account has to be there for, and what names it. */
    method RemoveBelongings()
      requires Noted()
      modifies this`containers, this`registrations, this`approvals, this`builds, this`secrets, this`first, this`faults,
        this`refusals
      ensures Kept(old(first), old(faults)) && NoneForNothing(old(faults), old(refusals))
      ensures NoneOf(old(registrations)) || Processes in faults || !account
      ensures registrations == map[] || Registrations in faults
      ensures !approvals || Approvals in faults
      ensures !builds || Builds in faults
      ensures !secrets || Secrets in faults
    {
      var read := Ask();
      if !read {
        Failed(Processes);
      } else if registrations != map[] {
        RemoveContainers(registrations);
      }
      assert NoneOf(old(registrations)) || Processes in faults || !account;
      RemoveRecords();
    }

    /**
     Every step is tried, whatever failed before it, and what it did not do is in faults. The record is
     removed exactly where there are none, and else names the first.
     */
    method RemoveMember()
      modifies this
      ensures Noted() && !removing
      ensures NoneOf(old(registrations)) || Processes in faults || !old(account)
      ensures registrations == map[] || Registrations in faults
      ensures !approvals || Approvals in faults
      ensures !builds || Builds in faults
      ensures !secrets || Secrets in faults
      ensures !account || Account in faults
      ensures !home || Archive in faults || Account in faults
      ensures !cgroups || Cgroups in faults
      ensures Ended(old(record), old(unrecorded))
      ensures refusals == old(refusals) ==> faults == {} && record == Removed
    {
      first, faults := None, {};
      RemoveBelongings();
      RemoveAccount();
      RemoveCgroups();
      Finish();
    }
  }

  /** A container is stopped and then removed, each under its own worker. */
  datatype Doing = AtStop | AtRemove

  datatype Stage =
    | Reading
    | LookingUp(list: map<Id, Registration>)
    | Walking(todo: map<Id, (Name, Doing)>)
    | Unregistering
    | DroppingApprovals
    | DroppingBuilds
    | DroppingSecrets
    | Purging
    | Deleting
    | Moving
    | Archiving
    | Sweeping
    | Finishing

  /** first is the step the job would record. faults is every step that failed, in the order they did. */
  datatype Job = Job(stage: Stage, first: Option<Step>, faults: seq<Step>)

  /** before is what failed in the attempts that are over, and initial what there was before the first. */
  datatype State = State(member: Member, job: Option<Job>, record: Record, before: set<Step>, initial: Member)

  datatype Event =
    | Read(ok: bool)
    | LookUp(ok: bool)
    | StopOne(id: Id, ok: bool)
    | RemoveOne(id: Id, ok: bool)
    | Walked
    | Unregister(ok: bool)
    | DropApprovals(ok: bool)
    | DropBuilds(ok: bool)
    | DropSecrets(ok: bool)
    | RemoveAll(ok: bool, some: set<Name>)
    | FindAccount(ok: bool)
    | DeleteAccount(ok: bool)
    | MoveHome(ok: bool)
    | ArchiveHome(ok: bool)
    | SweepCgroups(ok: bool)
    | Finish(ok: bool)
    | Crash
    | Again

  const BEGUN := Job(Reading, None, [])

  /** The job as it starts on a member who has an account. */
  function Start(member: Member): State {
    State(member, Some(BEGUN), Removing, {}, member)
  }

  predicate At(s: State, stage: Stage) {
    s.job.Some? && s.job.value.stage == stage
  }

  /** The containers of the list, each to be stopped and removed. */
  function Todo(list: map<Id, Registration>): map<Id, (Name, Doing)> {
    map id | id in list && list[id].Named() :: (list[id].container, AtStop)
  }

  predicate Enabled(s: State, e: Event) {
    match e
    case Again => s.job.None? && !s.record.Removed?
    case Crash => s.job.Some?
    case Read(_) => At(s, Reading)
    case LookUp(_) => s.job.Some? && s.job.value.stage.LookingUp?
    case StopOne(id, _) =>
      s.job.Some? && s.job.value.stage.Walking? && id in s.job.value.stage.todo && s.job.value.stage.todo[id].1.AtStop?
    case RemoveOne(id, _) =>
      s.job.Some? && s.job.value.stage.Walking? && id in s.job.value.stage.todo
        && s.job.value.stage.todo[id].1.AtRemove?
    case Walked => At(s, Walking(map[]))
    case Unregister(_) => At(s, Unregistering)
    case DropApprovals(_) => At(s, DroppingApprovals)
    case DropBuilds(_) => At(s, DroppingBuilds)
    case DropSecrets(_) => At(s, DroppingSecrets)
    case RemoveAll(_, _) => At(s, Purging) && s.member.account
    case FindAccount(ok) => At(s, Purging) && (ok ==> !s.member.account)
    case DeleteAccount(_) => At(s, Deleting)
    case MoveHome(_) => At(s, Moving)
    case ArchiveHome(_) => At(s, Archiving)
    case SweepCgroups(_) => At(s, Sweeping)
    case Finish(_) => At(s, Finishing)
  }

  /** The job goes to a stage, having failed at a step unless ok. */
  function Went(s: State, to: Stage, ok: bool, step: Step): State
    requires s.job.Some?
  {
    var job := s.job.value;
    s.(job := Some(
      if ok then job.(stage := to)
      else Job(to, if job.first == None then Some(step) else job.first, job.faults + [step])))
  }

  function Over(s: State): State
    requires s.job.Some?
  {
    s.(job := None, before := s.before + set f | f in s.job.value.faults)
  }

  function Next(s: State, to: Stage): State
    requires s.job.Some?
  {
    s.(job := Some(s.job.value.(stage := to)))
  }

  function Apply(s: State, e: Event): State
    requires Enabled(s, e)
  {
    var m := s.member;
    match e
    case Again => s.(job := Some(BEGUN), record := Removing)
    case Crash => Over(s)
    case Read(ok) =>
      if ok && m.registrations != map[] then Next(s, LookingUp(m.registrations))
      else Went(s, Unregistering, ok, Processes)
    case LookUp(ok) =>
      // An account that is gone leaves nobody to run the runtime as, and is not a failure.
      if ok && m.account then Next(s, Walking(Todo(s.job.value.stage.list)))
      else Went(s, Unregistering, ok, Processes)
    case StopOne(id, ok) =>
      var todo := s.job.value.stage.todo;
      Went(s, Walking(todo[id := (todo[id].0, AtRemove)]), ok, Processes)
    case RemoveOne(id, ok) =>
      var todo := s.job.value.stage.todo;
      var gone := if ok then s.(member := m.(containers := m.containers - {todo[id].0})) else s;
      Went(gone, Walking(todo - {id}), ok, Processes)
    case Walked => Next(s, Unregistering)
    case Unregister(ok) =>
      Went(if ok then s.(member := m.(registrations := map[])) else s, DroppingApprovals, ok, Registrations)
    case DropApprovals(ok) =>
      Went(if ok then s.(member := m.(approvals := false)) else s, DroppingBuilds, ok, Approvals)
    case DropBuilds(ok) => Went(if ok then s.(member := m.(builds := false)) else s, DroppingSecrets, ok, Builds)
    case DropSecrets(ok) => Went(if ok then s.(member := m.(secrets := false)) else s, Purging, ok, Secrets)
    // The deletion of an account begins with all containers there are. That it took only some of them is no fault.
    case RemoveAll(ok, some) =>
      Next(s.(member := m.(containers := if ok then {} else m.containers - some)), Deleting)
    case FindAccount(ok) => Went(s, if ok then Archiving else Sweeping, ok, Account)
    case DeleteAccount(ok) =>
      if ok then Next(s.(member := m.(account := false)), Moving) else Went(s, Sweeping, false, Account)
    case MoveHome(ok) => Went(if ok then s.(member := m.(home := false)) else s, Sweeping, ok, Account)
    case ArchiveHome(ok) => Went(if ok then s.(member := m.(home := false)) else s, Sweeping, ok, Archive)
    case SweepCgroups(ok) => Went(if ok then s.(member := m.(cgroups := false)) else s, Finishing, ok, Cgroups)
    case Finish(ok) =>
      var first := s.job.value.first;
      if !ok then Over(s) else Over(s.(record := OnRecord(first)))
  }

  function Run(member: Member, es: seq<Event>): Option<State> {
    if es == [] then Some(Start(member))
    else
      match Run(member, es[..|es| - 1])
      case None => None
      case Some(s) => if Enabled(s, es[|es| - 1]) then Some(Apply(s, es[|es| - 1])) else None
  }

  /** How far a stage is along. */
  function Rank(stage: Stage): nat {
    match stage
    case Reading => 0
    case LookingUp(_) => 1
    case Walking(_) => 2
    case Unregistering => 3
    case DroppingApprovals => 4
    case DroppingBuilds => 5
    case DroppingSecrets => 6
    case Purging => 7
    case Deleting => 8
    case Moving => 9
    case Archiving => 10
    case Sweeping => 11
    case Finishing => 12
  }

  /** The job is past a step once it stands behind this. */
  function Behind(step: Step): nat {
    match step
    case Processes => 3
    case Registrations => 4
    case Approvals => 5
    case Builds => 6
    case Secrets => 7
    case Account => 9
    case Archive => 11
    case Cgroups => 12
  }

  predicate Done(s: State, step: Step) {
    IsDone(s.initial.registrations, s.member, step)
  }

  predicate Past(s: State, step: Step) {
    s.job.Some? && Rank(s.job.value.stage) >= Behind(step)
  }

  /** A step that failed in this attempt. Deleting the account archives too, so its failure may be the archive's. */
  predicate Faulted(s: State, step: Step) {
    s.job.Some? && (step in s.job.value.faults || (step.Archive? && Account in s.job.value.faults))
  }

  /**
   This attempt has done what it is past, or knows that it has not. The containers may be an earlier
   one's to miss.
   */
  ghost predicate PastIsDone(s: State) {
    forall step | Past(s, step) ::
      Done(s, step) || Faulted(s, step) || (step.Processes? && Processes in s.before)
  }

  /** A registered container that is still there is still registered, unless the step for them failed. */
  ghost predicate LostNoContainer(s: State) {
    || Processes in s.before
    || (s.job.Some? && Processes in s.job.value.faults)
    || forall id <- s.initial.registrations ::
         var r := s.initial.registrations[id];
         r.Named() && r.container in s.member.containers ==>
           id in s.member.registrations && s.member.registrations[id] == r
  }

  /** What is still to walk is what may still be there, unless the step for it failed. */
  ghost predicate WalkCovers(s: State) {
    s.job.Some? && s.job.value.stage.Walking? ==>
      var todo := s.job.value.stage.todo;
      || Processes in s.before || Processes in s.job.value.faults
      || forall id <- s.initial.registrations ::
           var r := s.initial.registrations[id];
           r.Named() && r.container in s.member.containers ==> id in todo && todo[id].0 == r.container
  }

  ghost predicate ListIsRead(s: State) {
    s.job.Some? && s.job.value.stage.LookingUp? ==> s.job.value.stage.list == s.member.registrations
  }

  /** An account that is gone went after everything else was done, or a step before it had failed. */
  ghost predicate AccountWentLast(s: State) {
    !s.member.account ==>
      forall step | Behind(step) < Behind(Account) ::
        Done(s, step) || step in s.before || (s.job.Some? && step in s.job.value.faults)
  }

  predicate FirstIsFirst(s: State) {
    s.job.Some? ==> s.job.value.first == if s.job.value.faults == [] then None else Some(s.job.value.faults[0])
  }

  /** What the record says of the last attempt that was recorded. */
  ghost predicate RecordTells(s: State) {
    s.record.Removed? ==> s.job.None? && forall step :: Done(s, step) || (step.Processes? && Processes in s.before)
  }

  ghost predicate Inv(s: State) {
    && PastIsDone(s) && LostNoContainer(s) && WalkCovers(s) && ListIsRead(s) && AccountWentLast(s)
    && FirstIsFirst(s) && RecordTells(s)
  }

  /** What is done stays done. */
  lemma DoneStays(s: State, e: Event, step: Step)
    requires Enabled(s, e) && Done(s, step)
    ensures Done(Apply(s, e), step)
  {
  }

  /** The walk of the containers, and what may stand in for it. */
  lemma WalkingPasts(s: State, e: Event)
    requires Inv(s) && Enabled(s, e) && (e.Read? || e.LookUp? || e.Walked?) && Past(Apply(s, e), Processes)
    ensures var s' := Apply(s, e);
      Done(s', Processes) || Faulted(s', Processes) || Processes in s'.before
  {
    match e
    case Read(ok) =>
    case LookUp(ok) =>
      if ok && !s.member.account {
        assert Behind(Processes) < Behind(Account);
      }
    case Walked =>
  }

  lemma FaultsStay(s: State, e: Event, step: Step)
    requires Enabled(s, e) && s.job.Some? && Faulted(s, step) && Apply(s, e).job.Some?
    ensures Faulted(Apply(s, e), step)
  {
  }

  /** The event by which a job comes to stand behind a step does it, or is its failure. */
  lemma PassingIsDoing(s: State, e: Event, step: Step)
    requires Inv(s) && Enabled(s, e) && !step.Processes? && !Past(s, step) && Past(Apply(s, e), step)
    ensures Done(Apply(s, e), step) || Faulted(Apply(s, e), step)
  {
    if step.Account? || step.Archive? || step.Cgroups? {
      PassingTheAccount(s, e, step);
    } else {
      PassingTheRecords(s, e, step);
    }
  }

  lemma PassingTheRecords(s: State, e: Event, step: Step)
    requires Enabled(s, e) && !Past(s, step) && Past(Apply(s, e), step)
    requires step.Registrations? || step.Approvals? || step.Builds? || step.Secrets?
    ensures Done(Apply(s, e), step) || Faulted(Apply(s, e), step)
  {
  }

  lemma PassingTheAccount(s: State, e: Event, step: Step)
    requires Enabled(s, e) && !Past(s, step) && Past(Apply(s, e), step)
    requires step.Account? || step.Archive? || step.Cgroups?
    ensures Done(Apply(s, e), step) || Faulted(Apply(s, e), step)
  {
  }

  lemma StepKeepsPast(s: State, e: Event)
    requires Inv(s) && Enabled(s, e)
    ensures PastIsDone(Apply(s, e))
  {
    var s' := Apply(s, e);
    forall step | Past(s', step)
      ensures Done(s', step) || Faulted(s', step) || (step.Processes? && Processes in s'.before)
    {
      if Past(s, step) {
        if Done(s, step) {
          DoneStays(s, e, step);
        } else if Faulted(s, step) {
          FaultsStay(s, e, step);
        }
      } else if step.Processes? {
        PassingProcesses(s, e);
      } else {
        PassingIsDoing(s, e, step);
      }
    }
  }

  lemma PassingProcesses(s: State, e: Event)
    requires Inv(s) && Enabled(s, e) && !Past(s, Processes) && Past(Apply(s, e), Processes)
    ensures var s' := Apply(s, e);
      Done(s', Processes) || Faulted(s', Processes) || Processes in s'.before
  {
    match e
    case Read(_) => WalkingPasts(s, e);
    case LookUp(_) => WalkingPasts(s, e);
    case Walked => WalkingPasts(s, e);
    case _ => assert false;
  }

  lemma StepKeepsContainers(s: State, e: Event)
    requires Inv(s) && Enabled(s, e)
    ensures LostNoContainer(Apply(s, e))
  {
    if e.Unregister? {
      assert Past(s, Processes);
    }
  }

  lemma StepKeepsWalk(s: State, e: Event)
    requires Inv(s) && Enabled(s, e)
    ensures WalkCovers(Apply(s, e)) && ListIsRead(Apply(s, e))
  {
  }

  lemma StepKeepsKnown(s: State, e: Event, step: Step)
    requires Enabled(s, e) && (step in s.before || (s.job.Some? && step in s.job.value.faults))
    ensures var s' := Apply(s, e); step in s'.before || (s'.job.Some? && step in s'.job.value.faults)
  {
  }

  lemma StepKeepsAccount(s: State, e: Event)
    requires Inv(s) && Enabled(s, e)
    ensures AccountWentLast(Apply(s, e))
  {
    var s' := Apply(s, e);
    if !s'.member.account {
      forall step | Behind(step) < Behind(Account)
        ensures Done(s', step) || step in s'.before || (s'.job.Some? && step in s'.job.value.faults)
      {
        assert s.member.account ==> Past(s, step);
        if Done(s, step) {
          DoneStays(s, e, step);
        } else {
          StepKeepsKnown(s, e, step);
        }
      }
    }
  }

  lemma StepKeepsRecord(s: State, e: Event)
    requires Inv(s) && Enabled(s, e)
    ensures FirstIsFirst(Apply(s, e)) && RecordTells(Apply(s, e))
  {
  }

  lemma {:induction false} RunKeepsInv(member: Member, es: seq<Event>)
    requires member.account && Run(member, es).Some?
    ensures Inv(Run(member, es).value)
  {
    if es != [] {
      var init, e := es[..|es| - 1], es[|es| - 1];
      RunKeepsInv(member, init);
      var s := Run(member, init).value;
      StepKeepsPast(s, e);
      StepKeepsContainers(s, e);
      StepKeepsWalk(s, e);
      StepKeepsAccount(s, e);
      StepKeepsRecord(s, e);
    }
  }

  /** The step an event fails at, if it fails. A removal that could not be recorded is no step of it. */
  function FaultOf(e: Event): Option<Step> {
    match e
    case Read(ok) => if ok then None else Some(Processes)
    case LookUp(ok) => if ok then None else Some(Processes)
    case StopOne(_, ok) => if ok then None else Some(Processes)
    case RemoveOne(_, ok) => if ok then None else Some(Processes)
    case Unregister(ok) => if ok then None else Some(Registrations)
    case DropApprovals(ok) => if ok then None else Some(Approvals)
    case DropBuilds(ok) => if ok then None else Some(Builds)
    case DropSecrets(ok) => if ok then None else Some(Secrets)
    case FindAccount(ok) => if ok then None else Some(Account)
    case DeleteAccount(ok) => if ok then None else Some(Account)
    case MoveHome(ok) => if ok then None else Some(Account)
    case ArchiveHome(ok) => if ok then None else Some(Archive)
    case SweepCgroups(ok) => if ok then None else Some(Cgroups)
    case _ => None
  }

  /** The first step that failed since the job was last begun, read off the events alone. */
  function FirstFault(es: seq<Event>): Option<Step> {
    if es == [] || es[|es| - 1].Again? then None
    else
      var earlier := FirstFault(es[..|es| - 1]);
      if earlier != None then earlier else FaultOf(es[|es| - 1])
  }

  lemma StepKeepsFirst(s: State, e: Event)
    requires Enabled(s, e) && !e.Again? && Apply(s, e).job.Some?
    ensures s.job.Some?
    ensures Apply(s, e).job.value.first == if s.job.value.first != None then s.job.value.first else FaultOf(e)
  {
  }

  lemma {:induction false} FirstIsTheFirst(member: Member, es: seq<Event>)
    requires Run(member, es).Some? && Run(member, es).value.job.Some?
    ensures Run(member, es).value.job.value.first == FirstFault(es)
  {
    if es != [] {
      var init, e := es[..|es| - 1], es[|es| - 1];
      if !e.Again? {
        StepKeepsFirst(Run(member, init).value, e);
        FirstIsTheFirst(member, init);
      }
    }
  }

  /** The record is removed exactly where no step of this attempt failed, and names the first that did. */
  lemma RecordIsExact(member: Member, es: seq<Event>)
    requires es != [] && es[|es| - 1] == Finish(true) && Run(member, es).Some?
    ensures var fault := FirstFault(es[..|es| - 1]);
      Run(member, es).value.record == if fault == None then Removed else Record.Failed(fault.value)
  {
    FirstIsTheFirst(member, es[..|es| - 1]);
  }

  /** The deletion of an account took a container along. */
  predicate Takes(e: Event, c: Name) {
    e.RemoveAll? && (e.ok || c in e.some)
  }

  predicate EverTaken(es: seq<Event>, c: Name) {
    es != [] && (Takes(es[|es| - 1], c) || EverTaken(es[..|es| - 1], c))
  }

  /** It is some registration's own container, which is what the step for the containers walks. */
  predicate Names(m: Member, c: Name) {
    exists id <- m.registrations :: m.registrations[id].Named() && m.registrations[id].container == c
  }

  /** Registrations only go, and what is listed or to be walked is what they own. */
  ghost predicate WalksOwn(s: State) {
    && (forall id <- s.member.registrations :: id in s.initial.registrations
         && s.member.registrations[id] == s.initial.registrations[id])
    && (s.job.Some? && s.job.value.stage.LookingUp? ==>
          forall id <- s.job.value.stage.list ::
            id in s.initial.registrations && s.job.value.stage.list[id] == s.initial.registrations[id])
    && (s.job.Some? && s.job.value.stage.Walking? ==>
          forall id <- s.job.value.stage.todo :: Names(s.initial, s.job.value.stage.todo[id].0))
  }

  lemma StepWalksOwn(s: State, e: Event)
    requires WalksOwn(s) && Enabled(s, e)
    ensures WalksOwn(Apply(s, e)) && Apply(s, e).initial == s.initial
  {
  }

  lemma StepSparesOthers(s: State, e: Event, c: Name)
    requires WalksOwn(s) && Enabled(s, e)
    ensures var left, left' := s.member.containers, Apply(s, e).member.containers;
      && (c in left' ==> c in left && !Takes(e, c))
      && (!Names(s.initial, c) ==> (c in left' <==> c in left && !Takes(e, c)))
  {
    assert e.RemoveOne? ==> Names(s.initial, s.job.value.stage.todo[e.id].0);
    hide WalksOwn, Names;
  }

  /**
   A container that is no registration's own, as those of a pod's other units, is there at any point of any
   run exactly where no deletion of the account took it: no step looks for it, and none fails over it.
   */
  lemma {:induction false} OthersAreLeft(member: Member, es: seq<Event>, c: Name)
    requires Run(member, es).Some?
    ensures var s := Run(member, es).value;
      && s.initial == member && WalksOwn(s)
      && (c in s.member.containers ==> c in member.containers && !EverTaken(es, c))
      && (!Names(member, c) ==> (c in s.member.containers <==> c in member.containers && !EverTaken(es, c)))
  {
    if es != [] {
      var init, e := es[..|es| - 1], es[|es| - 1];
      OthersAreLeft(member, init, c);
      StepWalksOwn(Run(member, init).value, e);
      StepSparesOthers(Run(member, init).value, e, c);
    }
  }

  /**
   A member recorded as removed has nothing left here, whatever failed and however often the daemon
   stopped, but for containers: those that are no registration's own, and own ones only where the step
   for them failed in an attempt before, and of both only what no deletion of the account took.
   */
  lemma RemovedMeansGone(member: Member, es: seq<Event>)
    requires member.account && Run(member, es).Some? && Run(member, es).value.record.Removed?
    ensures var s := Run(member, es).value;
      && s.member.registrations == map[] && !s.member.approvals && !s.member.builds && !s.member.secrets
      && !s.member.account && !s.member.home && !s.member.cgroups
      && forall c :: c in s.member.containers ==>
           c in member.containers && !EverTaken(es, c) && (Names(member, c) ==> Processes in s.before)
  {
    RunKeepsInv(member, es);
    var s := Run(member, es).value;
    assert Done(s, Registrations) && Done(s, Approvals) && Done(s, Builds) && Done(s, Secrets);
    assert Done(s, Account) && Done(s, Archive) && Done(s, Cgroups);
    forall c | c in s.member.containers
      ensures c in member.containers && !EverTaken(es, c) && (Names(member, c) ==> Processes in s.before)
    {
      OthersAreLeft(member, es, c);
      assert Names(member, c) && Done(s, Processes) ==> c !in s.member.containers;
    }
  }

  /** Where the attempt under way was begun. */
  function BegunAt(es: seq<Event>): nat
    ensures BegunAt(es) <= |es|
  {
    if es == [] || es[|es| - 1].Again? then |es| else BegunAt(es[..|es| - 1])
  }

  /** What the deletion of the account took along, in the attempt under way. */
  predicate Taken(es: seq<Event>, c: Name) {
    es != [] && !es[|es| - 1].Again?
    && (Takes(es[|es| - 1], c) || Taken(es[..|es| - 1], c))
  }

  /** What an attempt that began with a container of that name and does not fail leaves of it. */
  predicate Escapes(m: Member, c: Name) {
    c in m.containers && (!m.account || !Names(m, c))
  }

  /** An attempt that began at a member and has not failed yet, as far as one container goes. */
  ghost predicate Underway(m: Member, s: State, taken: bool, c: Name)
    requires s.job.Some?
  {
    var stage := s.job.value.stage;
    && (Rank(stage) < 3 ==> s.member.registrations == m.registrations)
    && (Rank(stage) < 9 ==> s.member.account == m.account)
    && (Rank(stage) < 8 ==> !taken) && (taken ==> m.account)
    && (Rank(stage) < 2 ==> s.member.containers == m.containers)
    && (stage.LookingUp? ==> stage.list == m.registrations)
    && (stage.Walking? ==> m.account && HalfWalked(m, s.member.containers, stage.todo, c))
    && (3 <= Rank(stage) ==> (c in s.member.containers <==> Escapes(m, c) && !taken))
  }

  /** What is left to walk is some of what was listed, and all that may still be there under the name. */
  ghost predicate HalfWalked(m: Member, containers: set<Name>, todo: map<Id, (Name, Doing)>, c: Name) {
    && (forall id <- todo ::
      id in m.registrations && m.registrations[id].Named() && m.registrations[id].container == todo[id].0)
    && (forall id <- m.registrations ::
      m.registrations[id].Named() && m.registrations[id].container == c && c in containers ==> id in todo)
    && (c in containers ==> c in m.containers)
    && (c in m.containers && c !in containers ==> Names(m, c))
  }

  predicate Walks(e: Event) {
    e.Read? || e.LookUp? || e.StopOne? || e.RemoveOne? || e.Walked?
  }

  lemma WalkKeepsUnderway(m: Member, s: State, e: Event, taken: bool, c: Name)
    requires Enabled(s, e) && Walks(e) && s.job.Some? && Underway(m, s, taken, c)
    requires Apply(s, e).job.value.first == None
    ensures Underway(m, Apply(s, e), taken, c)
  {
  }

  lemma RecordsKeepUnderway(m: Member, s: State, e: Event, taken: bool, c: Name)
    requires Enabled(s, e) && !Walks(e) && !e.Again? && s.job.Some? && Underway(m, s, taken, c)
    requires Apply(s, e).job.Some?
    ensures Underway(m, Apply(s, e), taken || Takes(e, c), c)
  {
  }

  lemma {:induction false} AttemptUnderway(member: Member, es: seq<Event>, c: Name)
    requires Run(member, es).Some? && Run(member, es).value.job.Some? && Run(member, es).value.job.value.first == None
    ensures Run(member, es[..BegunAt(es)]).Some?
    ensures Underway(Run(member, es[..BegunAt(es)]).value.member, Run(member, es).value, Taken(es, c), c)
  {
    if es == [] || es[|es| - 1].Again? {
      assert es[..|es|] == es;
    } else {
      var init, e := es[..|es| - 1], es[|es| - 1];
      var s := Run(member, init).value;
      StepKeepsFirst(s, e);
      AttemptUnderway(member, init, c);
      assert es[..BegunAt(es)] == init[..BegunAt(init)];
      var m := Run(member, es[..BegunAt(es)]).value.member;
      if Walks(e) {
        WalkKeepsUnderway(m, s, e, Taken(init, c), c);
      } else {
        RecordsKeepUnderway(m, s, e, Taken(init, c), c);
      }
    }
  }

  /**
   What is left of a member recorded as removed, container by container, from what the attempt recorded
   began with: exactly what was no registration's own by then, and everything where the account was gone
   already, but for what the deletion of the account took along.
   */
  lemma RemovedLeavesExactly(member: Member, es: seq<Event>, c: Name)
    requires es != [] && es[|es| - 1] == Finish(true) && Run(member, es).Some? && Run(member, es).value.record.Removed?
    ensures Run(member, es[..BegunAt(es)]).Some?
    ensures c in Run(member, es).value.member.containers <==>
      Escapes(Run(member, es[..BegunAt(es)]).value.member, c) && !Taken(es, c)
    ensures Taken(es, c) ==> Run(member, es[..BegunAt(es)]).value.member.account
  {
    var init := es[..|es| - 1];
    AttemptUnderway(member, init, c);
    assert es[..BegunAt(es)] == init[..BegunAt(init)];
  }

  /**
   So a container a registration held when the attempt began, its own or one of a pod's other units, is left
   exactly where it was no registration's own or the account was gone, and the deletion did not take it.
   */
  lemma HeldIsLeftExactly(member: Member, es: seq<Event>, id: Id, c: Name)
    requires es != [] && es[|es| - 1] == Finish(true) && Run(member, es).Some? && Run(member, es).value.record.Removed?
    requires Run(member, es[..BegunAt(es)]).Some?
    requires var m := Run(member, es[..BegunAt(es)]).value.member;
      id in m.registrations && c in m.registrations[id].Held() && c in m.containers
    ensures var m := Run(member, es[..BegunAt(es)]).value.member;
      c in Run(member, es).value.member.containers <==> (!Names(m, c) || !m.account) && !Taken(es, c)
  {
    RemovedLeavesExactly(member, es, c);
  }

  lemma {:induction false} NothingFailed(member: Member, es: seq<Event>)
    requires Run(member, es).Some? && forall e <- es :: FaultOf(e) == None
    ensures var s := Run(member, es).value; s.before == {} && (s.job.Some? ==> s.job.value.faults == [])
  {
    if es != [] {
      var init, e := es[..|es| - 1], es[|es| - 1];
      assert e in es;
      NothingFailed(member, init);
      assert FaultOf(e) == None;
    }
  }

  /**
   Where no step failed, stopping anywhere and being taken up again loses nothing: removed means all of it
   gone, but exactly for the containers that are no registration's own and that no deletion of the account took.
   */
  lemma CrashesLoseNothing(member: Member, es: seq<Event>, step: Step, c: Name)
    requires member.account && Run(member, es).Some? && forall e <- es :: FaultOf(e) == None
    ensures var s := Run(member, es).value;
      && (s.record.Removed? ==> Done(s, step))
      && (s.record.Removed? ==>
            (c in s.member.containers <==> c in member.containers && !Names(member, c) && !EverTaken(es, c)))
      && (!s.member.account && Behind(step) < Behind(Account) ==> Done(s, step))
      && !s.record.Failed?
  {
    RunKeepsInv(member, es);
    NothingFailed(member, es);
    NeverRecordedFailed(member, es);
    OthersAreLeft(member, es, c);
    var s := Run(member, es).value;
    assert s.record.Removed? ==> Done(s, Processes);
  }

  /** Where the account went, the containers went before it, if that did not fail either. */
  ghost predicate NoneWithout(s: State) {
    !s.member.account || At(s, Deleting) ==> s.member.containers == {}
  }

  lemma StepTakesAll(s: State, e: Event)
    requires NoneWithout(s) && Enabled(s, e) && (e.RemoveAll? ==> e.ok)
    ensures NoneWithout(Apply(s, e))
  {
  }

  lemma {:induction false} AccountTakesAll(member: Member, es: seq<Event>, from: nat)
    requires Run(member, es).Some? && from <= |es| && forall i | from <= i < |es| && es[i].RemoveAll? :: es[i].ok
    requires Run(member, es[..from]).Some? && NoneWithout(Run(member, es[..from]).value)
    ensures NoneWithout(Run(member, es).value)
  {
    if |es| == from {
      assert es[..from] == es;
    } else {
      assert es[..|es| - 1][..from] == es[..from];
      AccountTakesAll(member, es[..|es| - 1], from);
      StepTakesAll(Run(member, es[..|es| - 1]).value, es[|es| - 1]);
    }
  }

  /** And where removing all containers with the account did not fail either, there is none left of any kind. */
  lemma AllTakenNothingIsLeft(member: Member, es: seq<Event>)
    requires member.account && Run(member, es).Some? && Run(member, es).value.record.Removed?
    requires forall e <- es :: e.RemoveAll? ==> e.ok
    ensures Run(member, es).value.member.containers == {}
  {
    RunKeepsInv(member, es);
    assert Done(Run(member, es).value, Account);
    assert es[..0] == [];
    AccountTakesAll(member, es, 0);
  }

  lemma {:induction false} NeverRecordedFailed(member: Member, es: seq<Event>)
    requires member.account && Run(member, es).Some? && forall e <- es :: FaultOf(e) == None
    ensures !Run(member, es).value.record.Failed?
  {
    if es != [] {
      var init, e := es[..|es| - 1], es[|es| - 1];
      NeverRecordedFailed(member, init);
      NothingFailed(member, init);
      RunKeepsInv(member, init);
    }
  }

  /** An account is only ever gone with every step before it done, or known to have failed. */
  lemma AccountGoesLast(member: Member, es: seq<Event>, step: Step)
    requires member.account && Run(member, es).Some? && Behind(step) < Behind(Account)
    ensures var s := Run(member, es).value;
      !s.member.account ==> Done(s, step) || step in s.before || (s.job.Some? && step in s.job.value.faults)
  {
    RunKeepsInv(member, es);
  }

  /** What a job that nothing disturbs does next. purge is whether it can remove all containers with the account. */
  ghost function NextOf(s: State, purge: bool): Event
    requires s.job.Some?
  {
    match s.job.value.stage
    case Reading => Read(true)
    case LookingUp(_) => LookUp(true)
    case Walking(todo) =>
      if todo == map[] then Walked
      else
        var id :| id in todo;
        if todo[id].1.AtStop? then StopOne(id, true) else RemoveOne(id, true)
    case Unregistering => Unregister(true)
    case DroppingApprovals => DropApprovals(true)
    case DroppingBuilds => DropBuilds(true)
    case DroppingSecrets => DropSecrets(true)
    case Purging => if s.member.account then RemoveAll(purge, {}) else FindAccount(true)
    case Deleting => DeleteAccount(true)
    case Moving => MoveHome(true)
    case Archiving => ArchiveHome(true)
    case Sweeping => SweepCgroups(true)
    case Finishing => Finish(true)
  }

  function ToStop(stage: Stage): set<Id> {
    if stage.Walking? then set id | id in stage.todo && stage.todo[id].1.AtStop? else {}
  }

  function ToRemove(stage: Stage): set<Id> {
    if stage.Walking? then stage.todo.Keys else {}
  }

  /** The next step can be taken, and is nearer to the end. */
  lemma NextIsNearer(s: State, purge: bool)
    requires s.job.Some?
    ensures var e := NextOf(s, purge);
      && Enabled(s, e) && Quiet(e, purge)
      && if e.Finish? then Apply(s, e).job.None? && !Apply(s, e).record.Removing?
         else
           var was, next := s.job.value.stage, Apply(s, e).job.value.stage;
           || Rank(next) > Rank(was)
           || (Rank(next) == Rank(was) && ToRemove(next) < ToRemove(was))
           || (Rank(next) == Rank(was) && ToRemove(next) == ToRemove(was) && ToStop(next) < ToStop(was))
  {
    var e := NextOf(s, purge);
    if e.RemoveOne? {
      assert e.id in ToRemove(s.job.value.stage) && e.id !in ToRemove(Apply(s, e).job.value.stage);
    } else if e.StopOne? {
      assert e.id in ToStop(s.job.value.stage) && e.id !in ToStop(Apply(s, e).job.value.stage);
    }
  }

  lemma RunSnoc(member: Member, es: seq<Event>, e: Event)
    requires Run(member, es).Some? && Enabled(Run(member, es).value, e)
    ensures Run(member, es + [e]) == Some(Apply(Run(member, es).value, e))
  {
    assert (es + [e])[..|es + [e]| - 1] == es;
  }

  /** What a job that is let alone does: nothing fails, and it is neither cut short nor begun again. */
  predicate Quiet(e: Event, purge: bool) {
    && FaultOf(e) == None && !e.Again? && !e.Crash?
    && (e.RemoveAll? ==> e == RemoveAll(purge, {})) && (e.Finish? ==> e.ok)
  }

  predicate NearerThan(next: Stage, was: Stage) {
    || Rank(next) > Rank(was)
    || (Rank(next) == Rank(was) && |ToRemove(next)| < |ToRemove(was)|)
    || (Rank(next) == Rank(was) && ToRemove(next) == ToRemove(was) && |ToStop(next)| < |ToStop(was)|)
  }

  lemma TakeNext(member: Member, es: seq<Event>, s: State, purge: bool) returns (e: Event, s': State)
    requires Run(member, es) == Some(s) && s.job.Some?
    ensures Quiet(e, purge) && Run(member, es + [e]) == Some(s')
    ensures e == Finish(true) || (s'.job.Some? && NearerThan(s'.job.value.stage, s.job.value.stage))
  {
    e := NextOf(s, purge);
    NextIsNearer(s, purge);
    RunSnoc(member, es, e);
    s' := Apply(s, e);
    if !e.Finish? {
      Smaller(s.job.value.stage, s'.job.value.stage);
    }
  }

  /** A job that is let alone comes to its end. */
  lemma {:induction false} LetAloneItEnds(member: Member, es: seq<Event>, s: State, purge: bool)
      returns (more: seq<Event>)
    requires Run(member, es) == Some(s) && s.job.Some?
    ensures Run(member, es + more).Some? && more != [] && more[|more| - 1] == Finish(true)
    ensures forall e <- more :: Quiet(e, purge)
    decreases 13 - Rank(s.job.value.stage), |ToRemove(s.job.value.stage)|, |ToStop(s.job.value.stage)|
  {
    var e, s' := TakeNext(member, es, s, purge);
    if e == Finish(true) {
      more := [e];
    } else {
      var rest := LetAloneItEnds(member, es + [e], s', purge);
      more := [e] + rest;
      ConcatIsAssociative(es, [e], rest);
    }
  }

  lemma Smaller(was: Stage, next: Stage)
    ensures ToRemove(next) < ToRemove(was) ==> |ToRemove(next)| < |ToRemove(was)|
    ensures ToStop(next) < ToStop(was) ==> |ToStop(next)| < |ToStop(was)|
  {
    if ToRemove(next) < ToRemove(was) {
      ProperSubsetIsSmaller(ToRemove(next), ToRemove(was));
    }
    if ToStop(next) < ToStop(was) {
      ProperSubsetIsSmaller(ToStop(next), ToStop(was));
    }
  }

  lemma ProperSubsetIsSmaller(a: set<Id>, b: set<Id>)
    requires a < b
    ensures |a| < |b|
  {
    assert b == a + (b - a);
  }

  lemma LetAloneOn(member: Member, es: seq<Event>, s: State) returns (more: seq<Event>)
    requires Run(member, es) == Some(s) && s.job.Some? && forall e <- es :: FaultOf(e) == None
    ensures es <= more && Run(member, more).Some? && more != [] && more[|more| - 1] == Finish(true)
    ensures forall e <- more :: FaultOf(e) == None && (e.RemoveAll? && !e.ok ==> e in es)
  {
    hide Run;
    var rest := LetAloneItEnds(member, es, s, true);
    more := es + rest;
    forall e | e in more
      ensures FaultOf(e) == None && (e.RemoveAll? && !e.ok ==> e in es)
    {
      assert e in es || (e in rest && Quiet(e, true));
    }
  }

  lemma RemovedAtTheEnd(member: Member, es: seq<Event>)
    requires es != [] && es[|es| - 1] == Finish(true) && Run(member, es).Some? && forall e <- es :: FaultOf(e) == None
    ensures Run(member, es).value.record.Removed?
  {
    RecordIsExact(member, es);
    NoFault(es[..|es| - 1]);
  }

  lemma {:induction false} NoFault(es: seq<Event>)
    requires forall e <- es :: FaultOf(e) == None
    ensures FirstFault(es) == None
  {
    if es != [] {
      NoFault(es[..|es| - 1]);
      assert es[|es| - 1] in es;
    }
  }

  /** A job that is stopped anywhere ends as removed once it is taken up again and let alone. */
  lemma TakenUpItEnds(member: Member, es: seq<Event>) returns (more: seq<Event>)
    requires member.account && Run(member, es).Some? && forall e <- es :: FaultOf(e) == None
    ensures es <= more && Run(member, more).Some? && Run(member, more).value.record.Removed?
    ensures forall e <- more :: FaultOf(e) == None && (e.RemoveAll? && !e.ok ==> e in es)
  {
    var s := Run(member, es).value;
    more := es;
    NeverRecordedFailed(member, es);
    if !s.record.Removed? {
      if s.job.None? {
        RunSnoc(member, es, Again);
        more, s := es + [Again], Apply(s, Again);
      }
      more := LetAloneOn(member, more, s);
      RemovedAtTheEnd(member, more);
    }
  }

  /**
   Wherever the daemon stops, and however often, with no step failing: the job taken up again ends, the
   member is recorded as removed, and nothing of them is left, but for the containers that are no
   registration's own where removing them with the account had failed.
   */
  lemma ResumedJobFinishes(member: Member, es: seq<Event>) returns (more: seq<Event>)
    requires member.account && Run(member, es).Some? && forall e <- es :: FaultOf(e) == None
    ensures es <= more && Run(member, more).Some? && Run(member, more).value.record.Removed?
    ensures forall step :: Done(Run(member, more).value, step)
    ensures forall c :: c in Run(member, more).value.member.containers <==>
      c in member.containers && !Names(member, c) && !EverTaken(more, c)
    ensures (forall e <- es :: e.RemoveAll? ==> e.ok) ==> Run(member, more).value.member.containers == {}
  {
    more := TakenUpItEnds(member, es);
    hide Run, Names, EverTaken, IsDone;
    forall step
      ensures Done(Run(member, more).value, step)
    {
      CrashesLoseNothing(member, more, step, "");
    }
    forall c
      ensures c in Run(member, more).value.member.containers <==>
        c in member.containers && !Names(member, c) && !EverTaken(more, c)
    {
      CrashesLoseNothing(member, more, Processes, c);
    }
    if forall e <- es :: e.RemoveAll? ==> e.ok {
      AllTakenNothingIsLeft(member, more);
    }
  }

  lemma {:induction false} QuietSince(es: seq<Event>, from: nat, purge: bool, c: Name)
    requires from <= |es| && forall i | from <= i < |es| :: Quiet(es[i], purge)
    requires BegunAt(es[..from]) == from
    ensures BegunAt(es) == from && FirstFault(es) == None && (Taken(es, c) ==> purge)
  {
    if |es| == from {
      assert es[..from] == es;
    } else {
      assert es[..|es| - 1][..from] == es[..from];
      QuietSince(es[..|es| - 1], from, purge, c);
    }
  }

  lemma LetAloneIsRecorded(member: Member, es: seq<Event>, more: seq<Event>, purge: bool)
    requires es < more && more[|more| - 1] == Finish(true) && Run(member, more).Some?
    requires BegunAt(es) == |es| && forall i | |es| <= i < |more| :: Quiet(more[i], purge)
    ensures Run(member, more).value.record.Removed?
  {
    var init := more[..|more| - 1];
    assert init[..|es|] == es;
    QuietSince(init, |es|, purge, "");
    RecordIsExact(member, more);
  }

  lemma BegunIsReading(member: Member, es: seq<Event>)
    requires Run(member, es).Some? && BegunAt(es) == |es|
    ensures At(Run(member, es).value, Reading)
  {
  }

  /** A removal of all containers that does not fail leaves none where there was an account to delete. */
  lemma PurgedLeaves(member: Member, es: seq<Event>, more: seq<Event>)
    requires es < more && Run(member, more).Some? && Run(member, more).value.record.Removed?
    requires more[|more| - 1] == Finish(true) && Run(member, es).Some? && Run(member, es).value.member.account
    requires BegunAt(es) == |es| && forall i | |es| <= i < |more| :: Quiet(more[i], true)
    ensures Run(member, more).value.member.containers == {}
  {
    BegunIsReading(member, es);
    assert more[..|es|] == es;
    AccountTakesAll(member, more, |es|);
    AttemptTakesAccount(member, more);
  }

  /** An attempt that is recorded as removed leaves no account. */
  lemma AttemptTakesAccount(member: Member, es: seq<Event>)
    requires es != [] && es[|es| - 1] == Finish(true) && Run(member, es).Some? && Run(member, es).value.record.Removed?
    ensures !Run(member, es).value.member.account
  {
    var init := es[..|es| - 1];
    AccountUnderway(member, init);
    assert Apply(Run(member, init).value, Finish(true)).record.Removed?;
  }

  lemma {:induction false} AccountUnderway(member: Member, es: seq<Event>)
    requires Run(member, es).Some? && Run(member, es).value.job.Some? && Run(member, es).value.job.value.first == None
    ensures Rank(Run(member, es).value.job.value.stage) >= Behind(Account) ==> !Run(member, es).value.member.account
  {
    if es != [] && !es[|es| - 1].Again? {
      StepKeepsFirst(Run(member, es[..|es| - 1]).value, es[|es| - 1]);
      AccountUnderway(member, es[..|es| - 1]);
    }
  }

  /**
   An attempt that is let alone ends with the member recorded as removed, and leaves exactly the containers
   that escape it, or none where there was an account and removing them with it did not fail.
   */
  lemma LetAloneLeaves(member: Member, es: seq<Event>, purge: bool) returns (more: seq<Event>)
    requires Run(member, es).Some? && BegunAt(es) == |es|
    ensures es < more && Run(member, more).Some? && Run(member, more).value.record.Removed?
    ensures forall i | |es| <= i < |more| :: Quiet(more[i], purge)
    ensures var m := Run(member, es).value.member;
      forall c :: c in Run(member, more).value.member.containers <==> Escapes(m, c) && !(purge && m.account)
  {
    var rest := LetAloneItEnds(member, es, Run(member, es).value, purge);
    var m := Run(member, es).value.member;
    more := es + rest;
    LetAloneIsRecorded(member, es, more, purge);
    if purge && m.account {
      PurgedLeaves(member, es, more);
    }
    forall c
      ensures c in Run(member, more).value.member.containers <==> Escapes(m, c) && !(purge && m.account)
    {
      QuietSince(more, |es|, purge, c);
      assert more[..|es|] == es;
      RemovedLeavesExactly(member, more, c);
    }
  }

  /** A member with one registration, whose container could not be removed. */
  lemma ContainerNotRemoved(member: Member) returns (es: seq<Event>)
    requires member.account && member.registrations == map["p" := Registration(false, "c", {})]
      && "c" in member.containers
    ensures Run(member, es).Some? && At(Run(member, es).value, Unregistering) && Run(member, es).value.member == member
    ensures Run(member, es).value.record == Removing
  {
    var registered := map["p" := Registration(false, "c", {})];
    var stopping, removing := map["p" := ("c", AtStop)], map["p" := ("c", AtRemove)];
    assert "p" in member.registrations && Todo(registered) == stopping;
    assert stopping["p" := ("c", AtRemove)] == removing && removing - {"p"} == map[];
    var walk := [Read(true), LookUp(true), StopOne("p", true), RemoveOne("p", false), Walked];
    es := [];
    for i := 0 to |walk|
      invariant Run(member, es).Some?
      invariant var s := Run(member, es).value;
        && s.member == member && s.record == Removing
        && (i == 0 ==> At(s, Reading)) && (i == 1 ==> At(s, LookingUp(registered)))
        && (i == 2 ==> At(s, Walking(stopping))) && (i == 3 ==> At(s, Walking(removing)))
        && (i == 4 ==> At(s, Walking(map[]))) && (i == 5 ==> At(s, Unregistering))
    {
      RunSnoc(member, es, walk[i]);
      es := es + [walk[i]];
    }
  }

  /** The registration goes all the same, the daemon stops there, and the attempt after it finds neither. */
  lemma AForgottenContainerStays(member: Member) returns (es: seq<Event>)
    requires member.account && member.registrations == map["p" := Registration(false, "c", {})]
      && "c" in member.containers
    ensures Run(member, es).Some? && Run(member, es).value.record.Removed?
    ensures "c" in Run(member, es).value.member.containers
  {
    es := ContainerNotRemoved(member);
    RunSnoc(member, es, Unregister(true));
    es := es + [Unregister(true)];
    RunSnoc(member, es, Crash);
    es := es + [Crash];
    RunSnoc(member, es, Again);
    es := LetAloneLeaves(member, es + [Again], false);
  }

  /** The registration could not be deleted either, but the account goes: the attempt after it has nobody to look as. */
  lemma AContainerOfNobodyStays(member: Member) returns (es: seq<Event>)
    requires member.account && member.registrations == map["p" := Registration(false, "c", {})]
      && "c" in member.containers
    ensures Run(member, es).Some? && Run(member, es).value.record.Removed?
    ensures "c" in Run(member, es).value.member.containers
  {
    es := ContainerNotRemoved(member);
    var rest := [Unregister(false), DropApprovals(true), DropBuilds(true), DropSecrets(true),
      RemoveAll(false, {}), DeleteAccount(true), Crash];
    for i := 0 to |rest|
      invariant Run(member, es).Some? && !Run(member, es).value.record.Removed?
      invariant var s := Run(member, es).value;
        && s.member.containers == member.containers && s.member.registrations == member.registrations
        && (i < 6 ==> s.member.account) && (i >= 6 ==> !s.member.account)
        && (i == 0 ==> At(s, Unregistering)) && (i == 1 ==> At(s, DroppingApprovals))
        && (i == 2 ==> At(s, DroppingBuilds)) && (i == 3 ==> At(s, DroppingSecrets)) && (i == 4 ==> At(s, Purging))
        && (i == 5 ==> At(s, Deleting))
        && (i == 6 ==> At(s, Moving)) && (i == 7 ==> s.job.None?)
    {
      RunSnoc(member, es, rest[i]);
      es := es + [rest[i]];
    }
    RunSnoc(member, es, Again);
    es := LetAloneLeaves(member, es + [Again], false);
  }

  /**
   And with no step failing and nothing stopped, in the first attempt: a container of a pod that is not its
   face's stays where the deletion of the account did not take it.
   */
  lemma APodsUnitStays(member: Member, id: Id, c: Name) returns (es: seq<Event>)
    requires member.account && id in member.registrations && c in member.registrations[id].units
    requires c in member.containers && !Names(member, c)
    ensures Run(member, es).Some? && Run(member, es).value.record.Removed? && Run(member, es).value.before == {}
    ensures forall e <- es :: FaultOf(e) == None && !e.Crash? && !e.Again?
    ensures c in Run(member, es).value.member.containers
  {
    es := LetAloneLeaves(member, [], false);
    forall e | e in es
      ensures FaultOf(e) == None && !e.Crash? && !e.Again?
    {
      var i :| 0 <= i < |es| && es[i] == e;
      assert Quiet(es[i], false);
    }
    NothingFailed(member, es);
  }
}
