/**
 The container runtime and the store, as far as the daemon's starts and restores see them. Every
 call may fail, and what a namespace holds is whatever its sources were at the moment the runtime
 made it: the choices left open here (`*`) are the environment's. Only the daemon makes, starts and
 removes the containers of a Process.
 */
module Runtime {
  import opened Collections

  type Name = string
  type Id = string
  type Token = nat

  datatype Identity = Identity(device: nat, inode: nat)

  /** A mount as the runtime reports it: the source it was asked for, not what that resolved to. */
  datatype Mount = Mount(source: string, target: string, readOnly: bool)

  /** A mount as it was validated: the folder that was opened, by device and inode. */
  datatype Resolved = Resolved(source: string, target: string, readOnly: bool, id: Identity)

  /** What a container has once it is prepared. held is what is really mounted at each target. */
  datatype Namespace = Namespace(pid: int, reported: seq<Mount>, held: map<string, Identity>)

  datatype Phase = Created | Initialized | Running | Paused | Exited

  /** memberParent says the container was made under its member's own cgroup. */
  datatype Container = Container(phase: Phase, ns: Namespace, pod: Name, token: Token, memberParent: bool)

  predicate Up(c: Container) {
    c.phase.Running? || c.phase.Paused?
  }

  datatype Fault = NoContainer | NoPod | AlreadyRunning | TimedOut | Other

  /** The last mount reported at a target, which is the one a map of them keeps. */
  function ReportedAt(reported: seq<Mount>, target: string): Option<Mount> {
    if reported == [] then None
    else
      var last := reported[|reported| - 1];
      if last.target == target then Some(last) else ReportedAt(reported[..|reported| - 1], target)
  }

  /** A namespace that holds exactly the folders that were validated, where and how they were. */
  ghost predicate Matches(ns: Namespace, expected: seq<Resolved>) {
    ns.pid > 0 && forall want <- expected ::
      && ReportedAt(ns.reported, want.target) == Some(Mount(want.source, want.target, want.readOnly))
      && want.target in ns.held && ns.held[want.target] == want.id
  }

  predicate AllReadable(expected: seq<Resolved>, unreadable: set<string>) {
    forall want <- expected :: want.target !in unreadable
  }

  /** What the daemon did that matters for what an entrypoint sees. */
  datatype Entry =
    | Verified(name: Name, ns: Namespace, expected: seq<Resolved>)
    | Started(name: Name, ns: Namespace, expected: seq<Resolved>)

  /** No entrypoint of a Process with mounts ran in a namespace that was not read, and found right, before. */
  ghost predicate Sound(log: seq<Entry>) {
    forall i | 0 <= i < |log| && log[i].expected != [] ::
      && Matches(log[i].ns, log[i].expected)
      && (log[i].Started? ==> Verified(log[i].name, log[i].ns, log[i].expected) in log[..i])
  }

  lemma SoundAfterVerified(log: seq<Entry>, name: Name, ns: Namespace, expected: seq<Resolved>)
    requires Sound(log) && Matches(ns, expected)
    ensures Sound(log + [Verified(name, ns, expected)])
  {
    var more := log + [Verified(name, ns, expected)];
    forall i | 0 <= i < |log| ensures more[..i] == log[..i] && more[i] == log[i] {}
  }

  /** A start keeps the log sound exactly where there is nothing to verify, or that very namespace was. */
  lemma SoundAfterStarted(log: seq<Entry>, name: Name, ns: Namespace, expected: seq<Resolved>)
    requires Sound(log)
    ensures Sound(log + [Started(name, ns, expected)]) <==> expected == [] || Verified(name, ns, expected) in log
  {
    var more := log + [Started(name, ns, expected)];
    forall i | 0 <= i < |log| ensures more[..i] == log[..i] && more[i] == log[i] {}
    assert more[..|log|] == log && more[|log|] == Started(name, ns, expected);
    if expected != [] && Verified(name, ns, expected) in log {
      var i :| 0 <= i < |log| && log[i] == Verified(name, ns, expected);
      assert Matches(log[i].ns, log[i].expected);
    }
  }

  /**
   What went wrong that nobody is answered for, counted: removals and renames that were to undo
   something and failed, writes the store did not take, and calls that erred after they took effect.
   */
  datatype Misses = Misses(leftBehind: nat, store: nat, late: nat)

  predicate Left(was: Misses, now: Misses) {
    now.leftBehind > was.leftBehind
  }

  predicate StoreMissed(was: Misses, now: Misses) {
    now.store > was.store
  }

  predicate Late(was: Misses, now: Misses) {
    now.late > was.late
  }

  predicate Onward(was: Misses, now: Misses) {
    now.leftBehind >= was.leftBehind && now.store >= was.store && now.late >= was.late
  }

  predicate NoWriteMissed(was: Misses, now: Misses) {
    Onward(was, now) && now.store == was.store
  }

  /** A container runs that did not, in the namespace it was prepared with if it was, and the log says so. */
  ghost predicate Ran(before: map<Name, Container>, after: map<Name, Container>, oldLog: seq<Entry>, log: seq<Entry>,
      name: Name, expected: seq<Resolved>)
  {
    && name in before && name in after && !Up(before[name])
    && after == before[name := after[name]]
    && after[name] == before[name].(phase := Running, ns := after[name].ns)
    && (before[name].phase == Initialized ==> after[name].ns == before[name].ns)
    && log == oldLog + [Started(name, after[name].ns, expected)]
  }

  class Host {
    var containers: map<Name, Container>
    var pods: set<Name>
    /** The store: the token hash each registration holds. A hash stands for its token. */
    var rows: map<Id, Token>
    var minted: Token
    ghost var log: seq<Entry>
    ghost var misses: Misses
    /**
     What stood against the daemon, counted: calls that were refused, targets that could not be read, and
     namespaces that were made with something else in them than was validated.
     */
    ghost var against: nat
    /** Of these, what the daemon takes as final: starts that ran out of their time, and owners it cannot look up. */
    ghost var finals: nat

    /** Every container of a pod is in a pod the runtime has. */
    ghost predicate Housed()
      reads this`containers, this`pods
    {
      forall name <- containers :: containers[name].pod == "" || containers[name].pod in pods
    }

    /** What every operation of the daemon keeps. */
    ghost predicate Valid()
      reads this`containers, this`pods, this`log
    {
      Housed() && Sound(log)
    }

    constructor ()
      ensures Valid()
      ensures containers == map[] && pods == {} && rows == map[] && log == [] && misses == Misses(0, 0, 0)
      ensures against == 0 && finals == 0
    {
      containers, pods, rows, minted, log, misses := map[], {}, map[], 1, [], Misses(0, 0, 0);
      against, finals := 0, 0;
    }

    ghost method StandAgainst()
      modifies this`against
      ensures against == old(against) + 1
    {
      against := against + 1;
    }

    /** A call that erred, having done what it was asked for. */
    ghost method ErredLate()
      modifies this`misses
      ensures misses == old(misses).(late := old(misses).late + 1)
    {
      misses := misses.(late := misses.late + 1);
    }

    /** Something that was to be undone may not be, and that is logged. */
    ghost method LeaveBehind()
      modifies this`misses
      ensures misses == old(misses).(leftBehind := old(misses).leftBehind + 1)
    {
      misses := misses.(leftBehind := misses.leftBehind + 1);
    }

    method Create(name: Name, pod: Name, token: Token) returns (err: Option<Fault>)
      modifies this`containers, this`misses, this`against
      ensures against == old(against) +
        if err == None || name in old(containers) || (pod != "" && pod !in pods) then 0 else 1
      ensures err == None ==> misses == old(misses)
      ensures containers == old(containers) ==> err != None && misses == old(misses)
      ensures err != None && containers != old(containers) ==> misses == old(misses).(late := old(misses).late + 1)
      ensures containers != old(containers) ==>
        && name !in old(containers) && (pod == "" || pod in pods)
        && name in containers && containers == old(containers)[name := containers[name]]
        && containers[name].phase == Created && containers[name].pod == pod && containers[name].token == token
    {
      var refused: bool, made: bool, ns: Namespace := *, *, *;
      if name in containers || (pod != "" && pod !in pods) {
        return Some(Other);
      }
      if refused {
        StandAgainst();
      }
      if refused && !made {
        return Some(Other);
      }
      assert name !in containers;
      containers := containers[name := Container(Created, ns, pod, token, false)];
      if refused {
        ErredLate();
        return Some(Other);
      }
      err := None;
    }

    /** The bind mounts are made here, and the entrypoint has not run. expected is only for the count. */
    method Init(name: Name, ghost expected: seq<Resolved>) returns (err: Option<Fault>)
      modifies this`containers, this`against
      ensures containers.Keys == old(containers.Keys)
      ensures name !in containers ==> containers == old(containers)
      ensures name in containers ==>
        && containers == old(containers)[name := containers[name]]
        && containers[name] == old(containers)[name].(phase := containers[name].phase, ns := containers[name].ns)
        && (Up(containers[name]) ==> containers[name] == old(containers)[name])
      ensures err == None ==> name in containers && containers[name].phase == Initialized
      ensures name !in old(containers) || Up(old(containers)[name]) ==> against == old(against)
      ensures name in old(containers) && !Up(old(containers)[name]) ==>
        against == old(against) +
          if err != None || (expected != [] && !Matches(containers[name].ns, expected)) then 1 else 0
    {
      if name !in containers {
        return Some(NoContainer);
      }
      var refused: bool, touched: bool, ns: Namespace := *, *, *;
      var c := containers[name];
      if Up(c) {
        return Some(Other);
      }
      if refused || (expected != [] && !Matches(ns, expected)) {
        StandAgainst();
      }
      if refused && !touched {
        return Some(Other);
      }
      containers := containers[name := c.(phase := Initialized, ns := ns)];
      err := if refused then Some(Other) else None;
    }

    /** What the runtime says of a container: that there is none exactly where there is none. */
    method Config(name: Name) returns (err: Option<Fault>, config: Option<Container>)
      modifies this`against
      ensures against == old(against) + if err == None || err == Some(NoContainer) then 0 else 1
      ensures err == None <==> config != None
      ensures config != None ==> name in containers && config.value == containers[name]
      ensures err == Some(NoContainer) <==> name !in containers
    {
      var refused: bool := *;
      if name !in containers {
        return Some(NoContainer), None;
      }
      if refused {
        StandAgainst();
        return Some(Other), None;
      }
      return None, Some(containers[name]);
    }

    /** The targets that cannot be read through a container's process, of those that are to be. */
    method Unreadable(ghost expected: seq<Resolved>) returns (targets: set<string>)
      modifies this`against
      ensures against == old(against) + if AllReadable(expected, targets) then 0 else 1
    {
      targets := *;
      if !AllReadable(expected, targets) {
        StandAgainst();
      }
    }

    /** The file a container's environment is read from. */
    method WriteEnvFile() returns (ok: bool)
      modifies this`against
      ensures against == old(against) + if ok then 0 else 1
    {
      ok := *;
      if !ok {
        StandAgainst();
      }
    }

    /**
     A prepared container runs in the namespace it has. Any other is given a new one and runs at once.
     A start that ran out of its time, or failed otherwise, may have come up all the same.
     expected is only for the log: the mounts the caller validated.
     */
    method Start(name: Name, ghost expected: seq<Resolved>) returns (err: Option<Fault>, ghost ran: bool)
      modifies this`containers, this`log, this`misses, this`against, this`finals
      ensures finals == old(finals) + if err == Some(TimedOut) then 1 else 0
      ensures against == old(against) +
        if err == None || err == Some(NoContainer) || err == Some(AlreadyRunning) then 0 else 1
      ensures ran ==> Ran(old(containers), containers, old(log), log, name, expected)
      ensures !ran ==> containers == old(containers) && log == old(log)
      ensures err == None ==> ran
      ensures misses == if ran && err != None then old(misses).(late := old(misses).late + 1) else old(misses)
      ensures err == Some(NoContainer) <==> name !in old(containers)
      ensures err == Some(AlreadyRunning) <==> name in old(containers) && Up(old(containers)[name])
      ensures err == Some(NoContainer) || err == Some(AlreadyRunning) ==> !ran
    {
      if name !in containers {
        return Some(NoContainer), false;
      }
      var c := containers[name];
      if Up(c) {
        return Some(AlreadyRunning), false;
      }
      var fault: Option<Fault>, took: bool, ns: Namespace := *, *, *;
      err := if fault == None then None else if fault == Some(TimedOut) then fault else Some(Other);
      if err != None {
        StandAgainst();
      }
      if err == Some(TimedOut) {
        finals := finals + 1;
      }
      if err != None && !took {
        return err, false;
      }
      c := c.(phase := Running, ns := if c.phase == Initialized then c.ns else ns);
      containers := containers[name := c];
      log := log + [Started(name, c.ns, expected)];
      if err != None {
        ErredLate();
      }
      ran := true;
    }

    method Remove(name: Name) returns (err: Option<Fault>)
      modifies this`containers, this`misses, this`against
      ensures against == old(against) + if err == None || err == Some(NoContainer) then 0 else 1
      ensures err == None || err == Some(NoContainer) ==>
        containers == old(containers) - {name} && misses == old(misses)
      ensures err != None && err != Some(NoContainer) ==>
        || (containers == old(containers) && misses == old(misses))
        || (containers == old(containers) - {name} && misses == old(misses).(late := old(misses).late + 1))
      ensures err == Some(NoContainer) <==> name !in old(containers)
    {
      if name !in containers {
        return Some(NoContainer);
      }
      var refused: bool, took: bool := *, *;
      if refused {
        StandAgainst();
      }
      if refused && !took {
        return Some(Other);
      }
      containers := containers - {name};
      if refused {
        ErredLate();
        return Some(Other);
      }
      err := None;
    }

    method Rename(name: Name, to: Name) returns (err: Option<Fault>)
      modifies this`containers, this`misses, this`against
      ensures against == old(against) + if err == None || name !in old(containers) || to in old(containers) then 0
        else 1
      ensures err == None ==> misses == old(misses)
      ensures err == None || containers != old(containers) ==>
        && name in old(containers) && to !in old(containers)
        && containers == (old(containers) - {name})[to := old(containers)[name]]
      ensures err != None ==>
        misses == if containers == old(containers) then old(misses) else old(misses).(late := old(misses).late + 1)
    {
      var refused: bool, took: bool := *, *;
      if name !in containers || to in containers {
        return Some(Other);
      }
      if refused {
        StandAgainst();
      }
      if refused && !took {
        return Some(Other);
      }
      assert to !in containers;
      containers := (containers - {name})[to := containers[name]];
      if refused {
        ErredLate();
        return Some(Other);
      }
      err := None;
    }

    /** A pod that failed to be made may be there by half. */
    method CreatePod(pod: Name) returns (err: Option<Fault>)
      modifies this`pods, this`against
      ensures against == old(against) + if err == None || pod in old(pods) then 0 else 1
      ensures err == None ==> pod !in old(pods) && pods == old(pods) + {pod}
      ensures err != None ==> pods == old(pods) || pods == old(pods) + {pod}
    {
      var refused: bool, half: bool := *, *;
      if pod in pods {
        return Some(Other);
      }
      if refused {
        StandAgainst();
      }
      if refused && !half {
        return Some(Other);
      }
      pods := pods + {pod};
      err := if refused then Some(Other) else None;
    }

    /** The pod and every container in it; or, where it erred, as much of it as had gone by then. */
    method RemovePod(pod: Name) returns (err: Option<Fault>)
      requires Housed()
      modifies this`pods, this`containers, this`misses, this`against
      ensures Housed()
      ensures against == old(against) + if err == None || err == Some(NoPod) then 0 else 1
      ensures err == None ==> pods == old(pods) - {pod} && containers == Outside(old(containers), pod)
      ensures err == Some(NoPod) <==> pod !in old(pods)
      ensures err == None || err == Some(NoPod) ==> misses == old(misses)
      ensures err == Some(NoPod) ==> pods == old(pods) && containers == old(containers)
      ensures err != None && err != Some(NoPod) ==>
        || (pods == old(pods) && containers == old(containers) && misses == old(misses))
        || (LessOf(old(containers), containers, pod) && old(pods) - {pod} <= pods <= old(pods)
            && misses == old(misses).(late := old(misses).late + 1))
    {
      if pod !in pods {
        return Some(NoPod);
      }
      var refused: bool, took: bool, whole: bool, some: set<Name> := *, *, *, *;
      if refused {
        StandAgainst();
      }
      if refused && !took {
        return Some(Other);
      }
      if refused && !whole {
        containers := map name | name in containers && (containers[name].pod != pod || name !in some) ::
          containers[name];
        ErredLate();
        return Some(Other);
      }
      pods := pods - {pod};
      containers := Outside(containers, pod);
      if refused {
        ErredLate();
        return Some(Other);
      }
      err := None;
    }

    method PodState(pod: Name) returns (err: Option<Fault>)
      modifies this`against
      ensures against == old(against) + if err == None || err == Some(NoPod) then 0 else 1
      ensures err == Some(NoPod) <==> pod !in pods
    {
      var refused: bool := *;
      err := if pod !in pods then Some(NoPod) else if refused then Some(Other) else None;
      if err == Some(Other) {
        StandAgainst();
      }
    }

    /** A token nobody has held before. */
    method NewToken() returns (token: Token)
      modifies this`minted
      ensures token == old(minted) && minted == old(minted) + 1
    {
      token := minted;
      minted := minted + 1;
    }

    /** A write of the store fails as a whole. */
    method Register(id: Id, token: Token) returns (ok: bool)
      modifies this`rows, this`misses, this`against
      ensures against == old(against) + if ok then 0 else 1
      ensures rows == if ok then old(rows)[id := token] else old(rows)
      ensures misses == if ok then old(misses) else old(misses).(store := old(misses).store + 1)
    {
      ok := *;
      if ok {
        rows := rows[id := token];
      } else {
        misses := misses.(store := misses.store + 1);
        StandAgainst();
      }
    }

    /** Writes the run of a registration that is there, and never makes one. */
    method UpdateRun(id: Id, token: Token) returns (ok: bool, held: bool)
      modifies this`rows, this`misses, this`against
      ensures against == old(against) + if ok then 0 else 1
      ensures held <==> ok && id in old(rows)
      ensures rows == if held then old(rows)[id := token] else old(rows)
      ensures misses == if ok then old(misses) else old(misses).(store := old(misses).store + 1)
    {
      ok := *;
      held := ok && id in rows;
      if held {
        rows := rows[id := token];
      }
      if !ok {
        misses := misses.(store := misses.store + 1);
        StandAgainst();
      }
    }

    method Unregister(id: Id) returns (ok: bool)
      modifies this`rows, this`misses, this`against
      ensures against == old(against) + if ok then 0 else 1
      ensures rows == if ok then old(rows) - {id} else old(rows)
      ensures misses == if ok then old(misses) else old(misses).(store := old(misses).store + 1)
    {
      ok := *;
      if ok {
        rows := rows - {id};
      } else {
        misses := misses.(store := misses.store + 1);
        StandAgainst();
      }
    }
  }

  /** The stored hash is the one of the container made here, unless this very write was missed. */
  ghost predicate CaughtUp(before: map<Id, Token>, after: map<Id, Token>, id: Id, token: Token, was: Misses,
      now: Misses) {
    after == before[id := token] || (after == before && StoreMissed(was, now))
  }

  function Outside(containers: map<Name, Container>, pod: Name): map<Name, Container> {
    map name | name in containers && containers[name].pod != pod :: containers[name]
  }

  /** Nothing is new and nothing outside the pod has gone. */
  ghost predicate LessOf(before: map<Name, Container>, after: map<Name, Container>, pod: Name) {
    && (forall name <- after :: name in before && after[name] == before[name])
    && Outside(after, pod) == Outside(before, pod)
  }
}
