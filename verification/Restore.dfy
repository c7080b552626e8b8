/** Bringing one container back after a boot: read where it stands, made again, or moved under a ceiling of its own. */
module Restore {
  import opened Collections
  import opened Runtime
  import opened Mounts
  import opened Pods

  const ASIDE_SUFFIX := "-preceiling"

  function Aside(name: Name): (aside: Name)
    ensures aside != name
  {
    assert |name + ASIDE_SUFFIX| > |name|;
    name + ASIDE_SUFFIX
  }

  /** Makes the container again from its registration. made is whether its command line could be written. */
  method RemakeMounted(h: Host, id: Id, name: Name, expected: seq<Resolved>, made: bool)
    returns (ok: bool, ghost token: Token)
    requires h.Valid()
    modifies h
    ensures h.Valid() && h.pods == old(h.pods) && h.against >= old(h.against)
    ensures h.against == old(h.against) ==> (ok <==> made)
    ensures ok ==>
      && Placed(h.containers, name, expected, token) && h.containers - {name} == old(h.containers) - {name}
      && CaughtUp(old(h.rows), h.rows, id, token, old(h.misses), h.misses)
    ensures !ok ==>
      && Refused(old(h.containers), old(h.log), old(h.misses), h, name)
      && h.rows == old(h.rows) && h.misses.store == old(h.misses).store
    ensures Onward(old(h.misses), h.misses) && old(h.log) <= h.log
  {
    var minted := h.NewToken();
    token := minted;
    if !made {
      return false, token;
    }
    var err := h.Remove(name);
    if err != None && err != Some(NoContainer) {
      return false, token;
    }
    ok := CreateVerified(h, name, minted, expected);
    if ok {
      var recorded := h.Register(id, minted);
    }
  }

  /** A prepared container runs where its namespace still matches, and is removed where it does not. */
  method ResumePrepared(h: Host, name: Name, expected: seq<Resolved>, unreadable: set<string>) returns (ok: bool)
    requires h.Valid()
    requires name in h.containers && h.containers[name].phase == Initialized
    modifies h`containers, h`log, h`misses, h`against, h`finals
    ensures h.Valid() && h.against >= old(h.against)
    ensures ok <==> Accepts(old(h.containers)[name].ns, expected, unreadable) && h.against == old(h.against)
    ensures ok ==>
      && h.containers == old(h.containers)[name := old(h.containers)[name].(phase := Running)]
      && (expected != [] ==> Matches(h.containers[name].ns, expected))
    ensures !ok ==> Refused(old(h.containers), old(h.log), old(h.misses), h, name)
    ensures NoWriteMissed(old(h.misses), h.misses) && old(h.log) <= h.log
  {
    var config := h.containers[name];
    ok := VerifyConfig(config, expected, unreadable);
    if !ok {
      TearDownAfterSwap(h, name);
      return;
    }
    if expected != [] {
      SoundAfterVerified(h.log, name, config.ns, expected);
      h.log := h.log + [Verified(name, config.ns, expected)];
    }
    ok := StartVerified(h, name, expected);
  }

  /** Up in a namespace that holds what was validated. */
  ghost predicate UpWith(containers: map<Name, Container>, name: Name, expected: seq<Resolved>) {
    && name in containers && Up(containers[name])
    && (expected != [] ==> Matches(containers[name].ns, expected))
  }

  /** What the restore of a Process with mounts comes to where nothing stands against it. */
  ghost function MountedDue(c: Container, expected: seq<Resolved>, made: bool): Outcome {
    if c.ns.pid > 0 && Up(c) then (if Matches(c.ns, expected) then WasRunning else HasFailed)
    else if c.ns.pid > 0 && c.phase == Initialized then (if Matches(c.ns, expected) then WasPlaced else HasFailed)
    else if made then WasPlaced
    else HasFailed
  }

  /**
   A Process that declares mounts. A container that runs is read where it stands, one that is only
   prepared is read and then started, and any other is made again. It is handed back unhandled only
   where there is none of that name.
   */
  method RestoreMounted(h: Host, id: Id, name: Name, expected: seq<Resolved>, made: bool)
    returns (handled: bool, outcome: Outcome)
    requires h.Valid() && expected != []
    modifies h
    ensures h.Valid() && h.pods == old(h.pods) && h.against >= old(h.against)
    ensures name in old(h.containers) && h.against == old(h.against) ==>
      outcome == MountedDue(old(h.containers)[name], expected, made)
    ensures !handled <==> name !in old(h.containers)
    ensures !handled || outcome.WasRunning? ==>
      && h.against == old(h.against) && h.finals == old(h.finals) && h.containers == old(h.containers)
      && h.rows == old(h.rows)
      && h.log == old(h.log) && h.misses == old(h.misses)
    ensures !handled || !outcome.WasPlaced? ==> h.rows == old(h.rows) && h.misses.store == old(h.misses).store
    ensures Onward(old(h.misses), h.misses) && old(h.log) <= h.log
    ensures handled ==> outcome.WasPlaced? || outcome.WasRunning? || outcome.HasFailed?
    ensures handled && outcome.WasRunning? ==> UpWith(h.containers, name, expected)
    ensures handled && outcome.WasPlaced? ==>
      && UpWith(h.containers, name, expected)
      && h.containers - {name} == old(h.containers) - {name}
      && (CaughtUp(old(h.rows), h.rows, id, h.containers[name].token, old(h.misses), h.misses) ||
          (h.rows == old(h.rows) && h.containers[name].token == old(h.containers)[name].token))
    ensures handled && outcome.HasFailed? ==> Refused(old(h.containers), old(h.log), old(h.misses), h, name)
  {
    var err, read := h.Config(name);
    if err == Some(NoContainer) {
      return false, HasFailed;
    } else if err != None {
      return true, HasFailed;
    }
    var config := read.value;
    if config.ns.pid > 0 && Up(config) {
      var unreadable := h.Unreadable(expected);
      var right := VerifyConfig(config, expected, unreadable);
      if !right {
        TearDownAfterSwap(h, name);
        return true, HasFailed;
      }
      return true, WasRunning;
    }
    if config.ns.pid > 0 && config.phase == Initialized {
      var unreadable := h.Unreadable(expected);
      var resumed := ResumePrepared(h, name, expected, unreadable);
      return true, if resumed then WasPlaced else HasFailed;
    }
    ghost var token;
    var again;
    again, token := RemakeMounted(h, id, name, expected, made);
    return true, if again then WasPlaced else HasFailed;
  }

  /**
   The runtime after a heal that did not succeed. The container that was there is there: under its
   name, or aside where this very rename back failed, or the rename away erred after it took effect.
   */
  ghost predicate PutBack(before: map<Name, Container>, after: map<Name, Container>, name: Name, was: Misses,
      now: Misses) {
    || after == before
    || ((Left(was, now) || Late(was, now)) && name in before && Aside(name) in after
         && after[Aside(name)] == before[name])
  }

  /** Setting a container aside, failing to make another of its name, and putting the name back changes nothing. */
  lemma PuttingBackUndoes(before: map<Name, Container>, left: map<Name, Container>, name: Name, aside: Name)
    requires name in before && aside !in before && aside != name && name !in left
    requires left - {name} == (before - {name})[aside := before[name]] - {name}
    ensures aside in left && (left - {aside})[name := left[aside]] == before
  {
    var moved := (before - {name})[aside := before[name]];
    assert aside in moved - {name};
    assert left == left - {name};
    assert moved == moved - {name};
  }

  /** Puts a new container under the name of one that is set aside, or the name back. */
  method Replace(h: Host, name: Name, token: Token, expected: seq<Resolved>) returns (up: bool)
    requires h.Valid()
    modifies h`containers, h`log, h`misses, h`against, h`finals
    ensures h.Valid() && h.against >= old(h.against)
    ensures h.against == old(h.against) ==> (up <==> name in old(h.containers) && Aside(name) !in old(h.containers))
    ensures NoWriteMissed(old(h.misses), h.misses)
    ensures old(h.log) <= h.log
    ensures up ==>
      && Placed(h.containers, name, expected, token) && name in old(h.containers)
      && Aside(name) in h.containers && h.containers[Aside(name)] == old(h.containers)[name]
    ensures !up ==>
      && PutBack(old(h.containers), h.containers, name, old(h.misses), h.misses)
      && RanOnlyLate(old(h.log), h.log, name, old(h.misses), h.misses)
    ensures h.containers - {name, Aside(name)} == old(h.containers) - {name, Aside(name)}
  {
    var aside := Aside(name);
    var err := h.Rename(name, aside);
    SetAside(old(h.containers), h.containers, name);
    if err != None {
      return false;
    }
    ghost var moved := h.containers;
    up := CreateVerified(h, name, token, expected);
    SameWithout(moved, h.containers, name, aside);
    if up {
      return;
    }
    assert aside in h.containers - {name};
    if name !in h.containers {
      PuttingBackUndoes(old(h.containers), h.containers, name, aside);
    }
    var back := h.Rename(aside, name);
    if back != None {
      h.LeaveBehind();
    }
  }

  lemma SetAside(before: map<Name, Container>, after: map<Name, Container>, name: Name)
    requires after == before ||
      (name in before && Aside(name) !in before && after == (before - {name})[Aside(name) := before[name]])
    ensures after - {name, Aside(name)} == before - {name, Aside(name)}
  {
  }

  lemma SameWithout(a: map<Name, Container>, b: map<Name, Container>, name: Name, other: Name)
    ensures a - {name} == b - {name} ==> a - {name, other} == b - {name, other}
  {
    assert a - {name, other} == (a - {name}) - {other};
    assert b - {name, other} == (b - {name}) - {other};
  }

  /** There is a container to move under a ceiling, everything asked before is in order, and the name aside is free. */
  ghost predicate Healable(containers: map<Name, Container>, name: Name, leaf: bool, resolved: Option<seq<Resolved>>,
      made: bool)
  {
    && leaf && name in containers && containers[name].memberParent
    && resolved != None && made && Aside(name) !in containers
  }

  /**
   Makes a container that was created under its member's cgroup again under a ceiling of its own.
   resolved is what the mounts check out to once more, and made whether everything else that is asked
   before anything is moved was in order.
   */
  method HealCeiling(h: Host, id: Id, name: Name, leaf: bool, resolved: Option<seq<Resolved>>, made: bool)
    returns (healed: bool, failed: bool, ghost token: Token)
    requires h.Valid()
    modifies h
    ensures h.Valid() && h.pods == old(h.pods) && h.against >= old(h.against)
    ensures h.against == old(h.against) ==>
      && (healed <==> Healable(old(h.containers), name, leaf, resolved, made))
      && (failed <==> !healed && leaf && name in old(h.containers) && old(h.containers)[name].memberParent)
    ensures healed ==>
      && !failed && leaf && resolved != None && name in old(h.containers) && old(h.containers)[name].memberParent
      && Placed(h.containers, name, resolved.value, token)
      && CaughtUp(old(h.rows), h.rows, id, token, old(h.misses), h.misses)
      && h.containers - {name, Aside(name)} == old(h.containers) - {name, Aside(name)}
      && (Aside(name) in h.containers ==>
            Left(old(h.misses), h.misses) && h.containers[Aside(name)] == old(h.containers)[name])
    ensures !healed ==>
      && h.rows == old(h.rows) && h.misses.store == old(h.misses).store
      && PutBack(old(h.containers), h.containers, name, old(h.misses), h.misses)
      && RanOnlyLate(old(h.log), h.log, name, old(h.misses), h.misses)
      && h.containers - {name, Aside(name)} == old(h.containers) - {name, Aside(name)}
    ensures Onward(old(h.misses), h.misses) && old(h.log) <= h.log
    ensures !leaf || name !in old(h.containers) ==> !healed && !failed && h.containers == old(h.containers)
  {
    token := 0;
    if !leaf {
      return false, false, token;
    }
    var err, config := h.Config(name);
    if err == Some(NoContainer) {
      return false, false, token;
    } else if err != None {
      return false, true, token;
    }
    if !config.value.memberParent {
      return false, false, token;
    }
    if resolved == None || !made {
      return false, true, token;
    }
    var minted := h.NewToken();
    token := minted;
    var written := h.WriteEnvFile();
    if !written {
      return false, true, token;
    }
    var up := Replace(h, name, minted, resolved.value);
    if !up {
      return false, true, token;
    }
    var recorded := h.Register(id, minted);
    err := h.Remove(Aside(name));
    if err != None && err != Some(NoContainer) {
      h.LeaveBehind();
    }
    healed, failed := true, false;
  }
}
