/**
 Reading the namespace of a prepared container before it runs, and making a container whose first
 start is in the namespace that was read.
 */
module Mounts {
  import opened Collections
  import opened Runtime

  /** What verifyConfig asks of a configuration, given the targets that cannot be read through it. */
  ghost predicate Accepts(ns: Namespace, expected: seq<Resolved>, unreadable: set<string>) {
    expected == [] || (Matches(ns, expected) && AllReadable(expected, unreadable))
  }

  /** Accepted exactly where every target can be read and holds what was validated. */
  method VerifyConfig(config: Container, expected: seq<Resolved>, unreadable: set<string>) returns (ok: bool)
    ensures ok <==> Accepts(config.ns, expected, unreadable)
  {
    if expected == [] {
      return true;
    }
    var ns := config.ns;
    var mounted: map<string, Mount> := map[];
    for i := 0 to |ns.reported|
      invariant forall t :: ReportedAt(ns.reported[..i], t) == if t in mounted then Some(mounted[t]) else None
    {
      assert ns.reported[..i + 1][..i] == ns.reported[..i];
      mounted := mounted[ns.reported[i].target := ns.reported[i]];
    }
    assert ns.reported[..|ns.reported|] == ns.reported;
    for i := 0 to |expected|
      invariant forall k | 0 <= k < i ::
        ReportedAt(ns.reported, expected[k].target) ==
          Some(Mount(expected[k].source, expected[k].target, expected[k].readOnly))
    {
      var want := expected[i];
      ReportedAtTarget(ns.reported, want.target);
      if want.target !in mounted || mounted[want.target].source != want.source
        || mounted[want.target].readOnly != want.readOnly {
        assert want in expected;
        return false;
      }
    }
    if ns.pid <= 0 {
      return false;
    }
    for i := 0 to |expected|
      invariant forall k | 0 <= k < i ::
        expected[k].target !in unreadable && expected[k].target in ns.held
          && ns.held[expected[k].target] == expected[k].id
    {
      var want := expected[i];
      if want.target in unreadable || want.target !in ns.held || ns.held[want.target] != want.id {
        assert want in expected;
        return false;
      }
    }
    return true;
  }

  lemma {:induction false} ReportedAtTarget(reported: seq<Mount>, target: string)
    ensures ReportedAt(reported, target).Some? ==> ReportedAt(reported, target).value.target == target
  {
    if reported != [] {
      ReportedAtTarget(reported[..|reported| - 1], target);
    }
  }

  /** A swap shows whatever the path is called: another folder at a target is refused, and so is none. */
  lemma SwapIsRefused(ns: Namespace, expected: seq<Resolved>, unreadable: set<string>, want: Resolved)
    requires want in expected
    requires ns.pid <= 0 || want.target !in ns.held || ns.held[want.target] != want.id
    ensures !Accepts(ns, expected, unreadable)
  {
    assert expected != [];
  }

  /** What untouched mounts look like in a namespace. */
  function Asked(expected: seq<Resolved>): seq<Mount> {
    if expected == [] then []
    else
      var want := expected[|expected| - 1];
      Asked(expected[..|expected| - 1]) + [Mount(want.source, want.target, want.readOnly)]
  }

  lemma {:induction false} AskedIsReported(expected: seq<Resolved>, i: nat)
    requires i < |expected| && forall j, k | 0 <= j < k < |expected| :: expected[j].target != expected[k].target
    ensures ReportedAt(Asked(expected), expected[i].target) ==
      Some(Mount(expected[i].source, expected[i].target, expected[i].readOnly))
  {
    var init, last := expected[..|expected| - 1], expected[|expected| - 1];
    var asked := Asked(expected);
    assert asked[..|asked| - 1] == Asked(init);
    if i < |init| {
      AskedIsReported(init, i);
      assert init[i] == expected[i];
    }
  }

  /**
   And nobody is refused for nothing: mounts as they were asked for, on the folders that were
   validated, are accepted.
   */
  lemma UntouchedIsAccepted(ns: Namespace, expected: seq<Resolved>, unreadable: set<string>)
    requires ns.pid > 0 && ns.reported == Asked(expected) && AllReadable(expected, unreadable)
    requires forall j, k | 0 <= j < k < |expected| :: expected[j].target != expected[k].target
    requires forall want <- expected :: want.target in ns.held && ns.held[want.target] == want.id
    ensures Accepts(ns, expected, unreadable)
  {
    forall want <- expected
      ensures ReportedAt(ns.reported, want.target) == Some(Mount(want.source, want.target, want.readOnly))
    {
      var i :| 0 <= i < |expected| && expected[i] == want;
      AskedIsReported(expected, i);
    }
  }

  /** The last mount at a target decides: an earlier one under it is not what the container sees. */
  lemma LaterMountShadows(ns: Namespace, expected: seq<Resolved>, unreadable: set<string>, want: Resolved, over: Mount)
    requires want in expected && over.target == want.target
    requires over.source != want.source || over.readOnly != want.readOnly
    requires ns.reported != [] && ns.reported[|ns.reported| - 1] == over
    ensures !Accepts(ns, expected, unreadable)
  {
    assert expected != [];
    assert ReportedAt(ns.reported, want.target) == Some(over);
  }

  /** Only this container changed, and it is not up unless it was before. */
  ghost predicate OnlyPrepared(before: map<Name, Container>, after: map<Name, Container>, name: Name) {
    && after.Keys == before.Keys
    && (name in before ==>
          && after == before[name := after[name]]
          && (Up(after[name]) ==> after[name] == before[name])
          && after[name] == before[name].(phase := after[name].phase, ns := after[name].ns))
    && (name !in before ==> after == before)
  }

  /**
   What a container that is given up leaves: nothing, unless this very removal failed, or the create
   that made it erred. It is up only where its start had erred.
   */
  ghost predicate TornDown(before: map<Name, Container>, after: map<Name, Container>, name: Name, was: Misses,
      now: Misses) {
    && after - {name} == before - {name}
    && (name in after ==> Left(was, now) || (after[name].phase == Created && Late(was, now)))
    && (name in after && Up(after[name]) ==> Left(was, now) && Late(was, now))
  }

  /** Nothing but this container was read or ran, and it ran only by a start that erred. */
  ghost predicate RanOnlyLate(oldLog: seq<Entry>, log: seq<Entry>, name: Name, was: Misses, now: Misses) {
    oldLog <= log && forall e <- log[|oldLog|..] :: e.name == name && (e.Started? ==> Late(was, now))
  }

  /** A start that was refused: no other container was touched, and this one is as it was or given up. */
  ghost predicate Refused(before: map<Name, Container>, oldLog: seq<Entry>, was: Misses, h: Host, name: Name)
    reads h
  {
    && RanOnlyLate(oldLog, h.log, name, was, h.misses)
    && (h.containers == before || TornDown(before, h.containers, name, was, h.misses))
  }

  method PrepareAndVerifyIn(h: Host, name: Name, expected: seq<Resolved>) returns (ok: bool)
    requires h.Valid()
    modifies h`containers, h`log, h`against
    ensures name in old(h.containers) && !Up(old(h.containers)[name]) ==> (ok <==> h.against == old(h.against))
    ensures h.against >= old(h.against)
    ensures OnlyPrepared(old(h.containers), h.containers, name)
    ensures h.Valid()
    ensures ok ==>
      && name in h.containers && h.containers[name].phase == Initialized
      && (expected != [] ==> Matches(h.containers[name].ns, expected))
      && h.log == old(h.log) + Check(name, h.containers[name].ns, expected)
    ensures !ok ==> h.log == old(h.log)
  {
    var err := h.Init(name, expected);
    if err != None {
      return false;
    }
    if expected == [] {
      return true;
    }
    var configErr, config := h.Config(name);
    if configErr != None {
      return false;
    }
    var unreadable := h.Unreadable(expected);
    ok := VerifyConfig(config.value, expected, unreadable);
    if ok {
      SoundAfterVerified(h.log, name, config.value.ns, expected);
      h.log := h.log + [Verified(name, config.value.ns, expected)];
    }
  }

  /** What a verification that passed adds to the log. A Process without mounts is not read. */
  function Check(name: Name, ns: Namespace, expected: seq<Resolved>): seq<Entry> {
    if expected == [] then [] else [Verified(name, ns, expected)]
  }

  /** The container is gone, or its removal counts as left behind. */
  method TearDownAfterSwap(h: Host, name: Name)
    modifies h`containers, h`misses, h`against
    ensures h.against >= old(h.against)
    ensures h.containers == old(h.containers) || h.containers == old(h.containers) - {name}
    ensures name in h.containers ==> Left(old(h.misses), h.misses) && h.against > old(h.against)
    ensures NoWriteMissed(old(h.misses), h.misses)
  {
    var err := h.Remove(name);
    if err != None && err != Some(NoContainer) {
      h.LeaveBehind();
    }
  }

  method PrepareAndVerify(h: Host, name: Name, expected: seq<Resolved>) returns (ok: bool)
    requires h.Valid()
    requires name in h.containers && !Up(h.containers[name])
    modifies h`containers, h`log, h`misses, h`against
    ensures h.Valid()
    ensures NoWriteMissed(old(h.misses), h.misses)
    ensures ok <==> h.against == old(h.against)
    ensures h.against >= old(h.against)
    ensures ok ==>
      && name in h.containers && h.containers == old(h.containers)[name := h.containers[name]]
      && h.containers[name] == old(h.containers)[name].(phase := Initialized, ns := h.containers[name].ns)
      && (expected != [] ==> Matches(h.containers[name].ns, expected))
      && h.log == old(h.log) + Check(name, h.containers[name].ns, expected) && h.misses == old(h.misses)
    ensures !ok ==>
      && h.log == old(h.log) && h.containers - {name} == old(h.containers) - {name}
      && (name in h.containers ==> Left(old(h.misses), h.misses) && !Up(h.containers[name]))
  {
    ok := PrepareAndVerifyIn(h, name, expected);
    if !ok {
      TearDownAfterSwap(h, name);
    }
  }

  /** A container that is up and was made here from what was validated. */
  ghost predicate Placed(containers: map<Name, Container>, name: Name, expected: seq<Resolved>, token: Token) {
    && name in containers && containers[name].phase == Running && containers[name].token == token
    && (expected != [] ==> Matches(containers[name].ns, expected))
  }

  /** The last of the four steps, on a container that was just verified. One whose start errs is given up. */
  method StartVerified(h: Host, name: Name, expected: seq<Resolved>) returns (ok: bool)
    requires h.Valid() && name in h.containers && h.containers[name].phase == Initialized
    requires expected == [] || Verified(name, h.containers[name].ns, expected) in h.log
    modifies h`containers, h`log, h`misses, h`against, h`finals
    ensures h.Valid()
    ensures NoWriteMissed(old(h.misses), h.misses)
    ensures ok <==> h.against == old(h.against)
    ensures h.against >= old(h.against)
    ensures ok ==> Ran(old(h.containers), h.containers, old(h.log), h.log, name, expected) && h.misses == old(h.misses)
    ensures !ok ==>
      && h.containers - {name} == old(h.containers) - {name}
      && (name in h.containers ==> Left(old(h.misses), h.misses))
      && (name in h.containers && Up(h.containers[name]) ==> Late(old(h.misses), h.misses))
      && RanOnlyLate(old(h.log), h.log, name, old(h.misses), h.misses)
  {
    ghost var ran;
    var err;
    err, ran := h.Start(name, expected);
    if ran {
      SoundAfterStarted(old(h.log), name, h.containers[name].ns, expected);
    }
    ok := err == None;
    if !ok {
      TearDownAfterSwap(h, name);
    }
  }

  /**
   Create, prepare, verify, start. A container that fails any of the four is given up: one that was
   refused ran nothing, and one whose start erred ran, if it did, in the namespace that was verified.
   */
  method CreateVerified(h: Host, name: Name, token: Token, expected: seq<Resolved>) returns (ok: bool)
    requires h.Valid()
    modifies h`containers, h`log, h`misses, h`against, h`finals
    ensures h.Valid()
    ensures NoWriteMissed(old(h.misses), h.misses)
    ensures ok <==> name !in old(h.containers) && h.against == old(h.against)
    ensures h.against >= old(h.against)
    ensures ok ==>
      && Placed(h.containers, name, expected, token) && name !in old(h.containers)
      && h.containers == old(h.containers)[name := h.containers[name]] && h.misses == old(h.misses)
      && h.log == old(h.log) + Check(name, h.containers[name].ns, expected)
           + [Started(name, h.containers[name].ns, expected)]
    ensures !ok ==> RanOnlyLate(old(h.log), h.log, name, old(h.misses), h.misses)
    ensures !ok ==>
      if name in old(h.containers) then h.containers == old(h.containers)
      else TornDown(old(h.containers), h.containers, name, old(h.misses), h.misses)
  {
    var err := h.Create(name, "", token);
    if err != None {
      return false;
    }
    var verified := PrepareAndVerify(h, name, expected);
    if !verified {
      return false;
    }
    ok := StartVerified(h, name, expected);
  }
}
