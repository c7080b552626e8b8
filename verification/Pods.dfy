/** Pods: all the units run or none does, and each was read before the first of them runs. */
module Pods {
  import opened Collections
  import opened Runtime
  import opened Mounts

  /** One unit, and the identities its mounts are to have. */
  datatype Unit = Unit(name: Name, face: bool, expected: seq<Resolved>)

  function Where(units: seq<Unit>, face: bool): seq<Unit> {
    if units == [] then []
    else Where(units[..|units| - 1], face) + if units[|units| - 1].face == face then [units[|units| - 1]] else []
  }

  /** The units without the face, and then the face; each part as declared. */
  function InOrder(units: seq<Unit>): seq<Unit> {
    Where(units, false) + Where(units, true)
  }

  method StartOrder(units: seq<Unit>) returns (out: seq<Unit>)
    ensures out == InOrder(units)
  {
    out := [];
    for i := 0 to |units|
      invariant out == Where(units[..i], false)
    {
      assert units[..i + 1][..i] == units[..i];
      if !units[i].face {
        out := out + [units[i]];
      }
    }
    assert units[..|units|] == units;
    ghost var sidecars := out;
    for i := 0 to |units|
      invariant out == sidecars + Where(units[..i], true)
    {
      assert units[..i + 1][..i] == units[..i];
      if units[i].face {
        out := out + [units[i]];
      }
    }
  }

  lemma {:induction false} WhereIs(units: seq<Unit>, face: bool)
    ensures forall u <- Where(units, face) :: u.face == face && u in units
    ensures Subsequence(Where(units, face), units)
  {
    if units != [] {
      var init, last := units[..|units| - 1], units[|units| - 1];
      WhereIs(init, face);
      assert units == init + [last];
      if last.face == face {
        SubsequenceSnoc(Where(init, face), init, last);
      } else {
        assert Where(units, face) == Where(init, face);
        SubsequenceSkip(Where(init, face), init, last);
      }
    }
  }

  lemma {:induction false} WhereSplits(units: seq<Unit>)
    ensures multiset(Where(units, false)) + multiset(Where(units, true)) == multiset(units)
  {
    if units != [] {
      var init, last := units[..|units| - 1], units[|units| - 1];
      WhereSplits(init);
      assert units == init + [last];
      assert multiset(Where(units, last.face)) == multiset(Where(init, last.face)) + multiset{last};
      assert Where(units, !last.face) == Where(init, !last.face) + [] == Where(init, !last.face);
    }
  }

  /** The start order is the units themselves, no face before another unit, and each kind in declared order. */
  lemma StartOrderPutsTheFaceLast(units: seq<Unit>, i: nat, j: nat)
    requires i < j < |InOrder(units)|
    ensures multiset(InOrder(units)) == multiset(units)
    ensures InOrder(units)[i].face ==> InOrder(units)[j].face
    ensures Subsequence(Where(units, false), units) && Subsequence(Where(units, true), units)
  {
    WhereSplits(units);
    WhereIs(units, false);
    WhereIs(units, true);
    var sidecars := Where(units, false);
    if i < |sidecars| {
      assert sidecars[i] in sidecars;
    }
    if j >= |sidecars| {
      assert Where(units, true)[j - |sidecars|] in Where(units, true);
    }
  }

  /** No trace of the pod or of a container of it. */
  ghost predicate PodGone(h: Host, pod: Name)
    reads h
  {
    pod !in h.pods && forall name <- h.containers :: h.containers[name].pod != pod
  }

  /** Nothing of the pod is left, or this very removal failed, by half or altogether. */
  method TearDownPod(h: Host, pod: Name)
    requires h.Valid() && pod != ""
    modifies h`containers, h`pods, h`misses, h`against
    ensures h.Valid() && h.against >= old(h.against)
    ensures NoWriteMissed(old(h.misses), h.misses)
    ensures PodGone(h, pod) || (Left(old(h.misses), h.misses) && h.against > old(h.against))
    ensures h.pods - {pod} == old(h.pods) - {pod}
    ensures Outside(h.containers, pod) == Outside(old(h.containers), pod)
  {
    var err := h.RemovePod(pod);
    if err != None && err != Some(NoPod) {
      h.LeaveBehind();
    }
  }

  /** Unit i of the pod is prepared and was found right. */
  ghost predicate Prepared(containers: map<Name, Container>, pod: Name, u: Unit, token: Token) {
    && u.name in containers && containers[u.name].phase == Initialized
    && containers[u.name].pod == pod && containers[u.name].token == token
    && (u.expected != [] ==> Matches(containers[u.name].ns, u.expected))
  }

  ghost predicate RunningIn(containers: map<Name, Container>, pod: Name, u: Unit, token: Token) {
    Placed(containers, u.name, u.expected, token) && containers[u.name].pod == pod
  }

  ghost predicate Known(units: seq<Unit>, containers: map<Name, Container>, i: nat) {
    i <= |units| && forall k | 0 <= k < i :: units[k].name in containers
  }

  /** What verifying the first i units, each in the namespace it has, puts in the log. */
  ghost function Checks(units: seq<Unit>, containers: map<Name, Container>, i: nat): seq<Entry>
    requires Known(units, containers, i)
  {
    if i == 0 then []
    else
      var u := units[i - 1];
      Checks(units, containers, i - 1) + Check(u.name, containers[u.name].ns, u.expected)
  }

  /** What starting the first i units puts there. */
  ghost function Starts(units: seq<Unit>, containers: map<Name, Container>, i: nat): seq<Entry>
    requires Known(units, containers, i)
  {
    if i == 0 then []
    else
      var u := units[i - 1];
      Starts(units, containers, i - 1) + [Started(u.name, containers[u.name].ns, u.expected)]
  }

  lemma {:induction false} EntriesKeep(units: seq<Unit>, a: map<Name, Container>, b: map<Name, Container>, i: nat)
    requires Known(units, a, i) && Known(units, b, i)
    requires forall k | 0 <= k < i :: a[units[k].name].ns == b[units[k].name].ns
    ensures Checks(units, a, i) == Checks(units, b, i) && Starts(units, a, i) == Starts(units, b, i)
  {
    if i > 0 {
      EntriesKeep(units, a, b, i - 1);
    }
  }

  lemma {:induction false} CheckedIsVerified(units: seq<Unit>, containers: map<Name, Container>, i: nat, k: nat)
    requires Known(units, containers, i) && k < i && units[k].expected != []
    ensures Verified(units[k].name, containers[units[k].name].ns, units[k].expected) in Checks(units, containers, i)
  {
    if k < i - 1 {
      CheckedIsVerified(units, containers, i - 1, k);
    }
  }

  lemma {:induction false} ChecksStartNothing(units: seq<Unit>, containers: map<Name, Container>, i: nat)
    requires Known(units, containers, i)
    ensures forall e <- Checks(units, containers, i) :: !e.Started?
  {
    if i > 0 {
      ChecksStartNothing(units, containers, i - 1);
    }
  }

  /** Nothing of any unit had executed when one of them was still to be verified. */
  ghost predicate NothingRanEarly(log: seq<Entry>, units: seq<Unit>) {
    forall i, k | 0 <= i < |log| && log[i].Started? && 0 <= k < |units| && units[k].expected != [] ::
      exists ns :: Verified(units[k].name, ns, units[k].expected) in log[..i]
  }

  lemma ChecksThenStarts(units: seq<Unit>, containers: map<Name, Container>, starts: seq<Entry>)
    requires Known(units, containers, |units|)
    ensures NothingRanEarly(Checks(units, containers, |units|) + starts, units)
  {
    var checks := Checks(units, containers, |units|);
    var log := checks + starts;
    ChecksStartNothing(units, containers, |units|);
    forall i, k | 0 <= i < |log| && log[i].Started? && 0 <= k < |units| && units[k].expected != []
      ensures Verified(units[k].name, containers[units[k].name].ns, units[k].expected) in log[..i]
    {
      assert forall j | 0 <= j < |checks| :: log[j] in checks;
      CheckedIsVerified(units, containers, |units|, k);
      assert log[..i][..|checks|] == checks;
    }
  }

  lemma NothingStartedIsNotEarly(log: seq<Entry>, units: seq<Unit>)
    requires forall e <- log :: !e.Started?
    ensures NothingRanEarly(log, units)
  {
  }

  ghost predicate DistinctNames(units: seq<Unit>, i: nat) {
    i <= |units| && forall j, k | 0 <= j < k < i :: units[j].name != units[k].name
  }

  lemma InOrderSame(units: seq<Unit>)
    ensures forall u :: u in InOrder(units) <==> u in units
    ensures |InOrder(units)| == |units|
  {
    WhereIs(units, false);
    WhereIs(units, true);
    WhereSplits(units);
    assert |multiset(InOrder(units))| == |multiset(units)|;
    forall u | u in units ensures u in InOrder(units) {
      assert u in multiset(units);
      assert u in multiset(Where(units, false)) || u in multiset(Where(units, true));
    }
  }

  /** Reordering keeps the names apart. */
  lemma InOrderDistinct(units: seq<Unit>)
    requires DistinctNames(units, |units|)
    ensures DistinctNames(InOrder(units), |InOrder(units)|)
  {
    var order := InOrder(units);
    WhereSplits(units);
    InOrderSame(units);
    forall j, k | 0 <= j < k < |order|
      ensures order[j].name != order[k].name
    {
      assert order[j] in units && order[k] in units;
      var a :| 0 <= a < |units| && units[a] == order[j];
      var b :| 0 <= b < |units| && units[b] == order[k];
      OnceInSeq(units, a);
      if a == b {
        TwiceInSeq(order, j, k);
        assert false;
      }
    }
  }

  lemma TwiceInSeq(s: seq<Unit>, j: nat, k: nat)
    requires j < k < |s| && s[j] == s[k]
    ensures multiset(s)[s[j]] >= 2
  {
    assert s == s[..k] + [s[k]] + s[k + 1..];
    assert s[..k][j] in multiset(s[..k]);
  }

  lemma OnceInSeq(s: seq<Unit>, i: nat)
    requires i < |s| && DistinctNames(s, |s|)
    ensures multiset(s)[s[i]] == 1
  {
    assert s == s[..i] + [s[i]] + s[i + 1..];
    assert s[i] !in s[..i] && s[i] !in s[i + 1..];
  }

  ghost predicate AllPrepared(containers: map<Name, Container>, pod: Name, units: seq<Unit>, token: Token, i: nat) {
    i <= |units| && forall k | 0 <= k < i :: Prepared(containers, pod, units[k], token)
  }

  ghost predicate AllRunning(containers: map<Name, Container>, pod: Name, units: seq<Unit>, token: Token) {
    forall k | 0 <= k < |units| :: RunningIn(containers, pod, units[k], token)
  }

  lemma OutsideKeeps(before: map<Name, Container>, name: Name, c: Container, pod: Name)
    requires c.pod == pod && (name in before ==> before[name].pod == pod)
    ensures Outside(before[name := c], pod) == Outside(before, pod)
  {
  }

  function NamesOf(units: seq<Unit>): set<Name> {
    set u | u in units :: u.name
  }

  /** Every unit has a name of its own, and there is no container of any of them. */
  ghost predicate Free(units: seq<Unit>, containers: map<Name, Container>) {
    DistinctNames(units, |units|) && forall k | 0 <= k < |units| :: units[k].name !in containers
  }

  /** One unit: its environment file, its container, and what it holds. */
  method PrepareUnit(h: Host, pod: Name, u: Unit, token: Token) returns (ok: bool)
    requires h.Valid() && pod != ""
    modifies h`containers, h`log, h`misses, h`against
    ensures h.Valid() && h.against >= old(h.against)
    ensures ok <==> u.name !in old(h.containers) && pod in h.pods && h.against == old(h.against)
    ensures NoWriteMissed(old(h.misses), h.misses)
    ensures ok ==>
      && u.name !in old(h.containers) && Prepared(h.containers, pod, u, token)
      && h.containers == old(h.containers)[u.name := h.containers[u.name]]
      && h.log == old(h.log) + Check(u.name, h.containers[u.name].ns, u.expected)
    ensures !ok ==> h.log == old(h.log)
    ensures Outside(h.containers, pod) == Outside(old(h.containers), pod)
  {
    var written := h.WriteEnvFile();
    if !written {
      return false;
    }
    var err := h.Create(u.name, pod, token);
    if h.containers != old(h.containers) {
      OutsideKeeps(old(h.containers), u.name, h.containers[u.name], pod);
    }
    if err != None {
      return false;
    }
    ghost var created := h.containers;
    ok := PrepareAndVerifyIn(h, u.name, u.expected);
    OutsideKeeps(created, u.name, h.containers[u.name], pod);
  }

  /** The first i of the units were created, prepared and verified, and nothing else was touched. */
  ghost predicate PreparedTo(units: seq<Unit>, pod: Name, token: Token, before: map<Name, Container>,
      after: map<Name, Container>, oldLog: seq<Entry>, log: seq<Entry>, i: nat)
  {
    && AllPrepared(after, pod, units, token, i) && DistinctNames(units, i) && Known(units, after, i)
    && log == oldLog + Checks(units, after, i)
    && after.Keys == before.Keys + NamesOf(units[..i])
    && (forall k | 0 <= k < i :: units[k].name !in before)
    && Outside(after, pod) == Outside(before, pod)
  }

  lemma PreparedStartsNothing(units: seq<Unit>, pod: Name, token: Token, before: map<Name, Container>,
      after: map<Name, Container>, oldLog: seq<Entry>, log: seq<Entry>, i: nat)
    requires PreparedTo(units, pod, token, before, after, oldLog, log, i)
    ensures oldLog <= log && forall e <- log[|oldLog|..] :: !e.Started?
    ensures Outside(after, pod) == Outside(before, pod)
  {
    ChecksStartNothing(units, after, i);
    assert log[|oldLog|..] == Checks(units, after, i);
  }

  lemma NonePrepared(units: seq<Unit>, pod: Name, token: Token, before: map<Name, Container>, log: seq<Entry>)
    ensures PreparedTo(units, pod, token, before, before, log, log, 0)
  {
  }

  lemma NextPrepared(units: seq<Unit>, pod: Name, token: Token, before: map<Name, Container>, mid: map<Name, Container>,
      after: map<Name, Container>, oldLog: seq<Entry>, midLog: seq<Entry>, log: seq<Entry>, i: nat)
    requires PreparedTo(units, pod, token, before, mid, oldLog, midLog, i) && i < |units|
    requires units[i].name !in mid && Prepared(after, pod, units[i], token)
    requires after == mid[units[i].name := after[units[i].name]]
    requires log == midLog + Check(units[i].name, after[units[i].name].ns, units[i].expected)
    requires Outside(after, pod) == Outside(mid, pod)
    ensures PreparedTo(units, pod, token, before, after, oldLog, log, i + 1)
  {
    NextKeepsPrepared(units, pod, token, mid, after, i);
    NamesGrow(units, i);
    NextChecks(units, mid, after, oldLog, i);
    KeysGrow(mid, after, units[i].name);
    hide Prepared, Outside, NamesOf, AllPrepared, DistinctNames, Checks, Known;
  }

  lemma KeysGrow(mid: map<Name, Container>, after: map<Name, Container>, name: Name)
    requires name in after && after == mid[name := after[name]]
    ensures after.Keys == mid.Keys + {name}
  {
  }

  lemma NextChecks(units: seq<Unit>, mid: map<Name, Container>, after: map<Name, Container>, oldLog: seq<Entry>, i: nat)
    requires i < |units| && Known(units, mid, i) && Known(units, after, i + 1)
    requires forall k | 0 <= k < i :: after[units[k].name] == mid[units[k].name]
    ensures oldLog + Checks(units, mid, i) + Check(units[i].name, after[units[i].name].ns, units[i].expected)
         == oldLog + Checks(units, after, i + 1)
  {
    EntriesKeep(units, mid, after, i);
    ConcatIsAssociative(oldLog, Checks(units, mid, i),
      Check(units[i].name, after[units[i].name].ns, units[i].expected));
  }

  lemma NamesGrow(units: seq<Unit>, i: nat)
    requires i < |units|
    ensures NamesOf(units[..i + 1]) == NamesOf(units[..i]) + {units[i].name}
  {
    assert units[..i + 1] == units[..i] + [units[i]];
  }

  lemma NextKeepsPrepared(units: seq<Unit>, pod: Name, token: Token, mid: map<Name, Container>,
      after: map<Name, Container>, i: nat)
    requires i < |units| && AllPrepared(mid, pod, units, token, i) && DistinctNames(units, i) && Known(units, mid, i)
    requires units[i].name !in mid && Prepared(after, pod, units[i], token)
    requires after == mid[units[i].name := after[units[i].name]]
    ensures AllPrepared(after, pod, units, token, i + 1) && DistinctNames(units, i + 1) && Known(units, after, i + 1)
    ensures forall k | 0 <= k < i :: after[units[k].name] == mid[units[k].name]
  {
  }

  /** The next unit, which needs only a name that nobody has, where nothing stands against it. */
  method PrepareNext(h: Host, pod: Name, units: seq<Unit>, token: Token, i: nat, ghost before: map<Name, Container>,
      ghost oldLog: seq<Entry>)
    returns (ok: bool)
    requires h.Valid() && pod != "" && i < |units|
    requires PreparedTo(units, pod, token, before, h.containers, oldLog, h.log, i)
    modifies h`containers, h`log, h`misses, h`against
    ensures h.Valid() && NoWriteMissed(old(h.misses), h.misses) && h.against >= old(h.against)
    ensures ok <==>
      && units[i].name !in before && units[i].name !in NamesOf(units[..i])
      && pod in h.pods && h.against == old(h.against)
    ensures ok ==> PreparedTo(units, pod, token, before, h.containers, oldLog, h.log, i + 1)
    ensures !ok ==> h.log == old(h.log) && Outside(h.containers, pod) == Outside(old(h.containers), pod)
  {
    ok := PrepareUnit(h, pod, units[i], token);
    if ok {
      NextPrepared(units, pod, token, before, old(h.containers), h.containers, oldLog, old(h.log), h.log, i);
    }
  }

  /** Creates, prepares and verifies every unit. Nothing is started here. */
  method PrepareUnits(h: Host, pod: Name, units: seq<Unit>, token: Token) returns (ok: bool)
    requires h.Valid() && pod != ""
    modifies h`containers, h`log, h`misses, h`against
    ensures h.Valid() && h.against >= old(h.against)
    ensures pod in h.pods && h.against == old(h.against) ==> (ok <==> Free(units, old(h.containers)))
    ensures NoWriteMissed(old(h.misses), h.misses)
    ensures old(h.log) <= h.log && forall e <- h.log[|old(h.log)|..] :: !e.Started?
    ensures ok ==> PreparedTo(units, pod, token, old(h.containers), h.containers, old(h.log), h.log, |units|)
    ensures Outside(h.containers, pod) == Outside(old(h.containers), pod)
  {
    hide PreparedTo, Outside;
    NonePrepared(units, pod, token, h.containers, h.log);
    for i := 0 to |units|
      invariant h.Valid() && NoWriteMissed(old(h.misses), h.misses) && h.against >= old(h.against)
      invariant PreparedTo(units, pod, token, old(h.containers), h.containers, old(h.log), h.log, i)
    {
      PreparedStartsNothing(units, pod, token, old(h.containers), h.containers, old(h.log), h.log, i);
      ok := PrepareNext(h, pod, units, token, i, old(h.containers), old(h.log));
      if !ok {
        if Free(units, old(h.containers)) {
          TakenIsNotFree(units, i, old(h.containers));
        }
        return false;
      }
    }
    PreparedStartsNothing(units, pod, token, old(h.containers), h.containers, old(h.log), h.log, |units|);
    PreparedIsFree(units, pod, token, old(h.containers), h.containers, old(h.log), h.log);
    ok := true;
  }

  lemma TakenIsNotFree(units: seq<Unit>, i: nat, containers: map<Name, Container>)
    requires i < |units| && Free(units, containers)
    ensures units[i].name !in containers && units[i].name !in NamesOf(units[..i])
  {
  }

  lemma PreparedIsFree(units: seq<Unit>, pod: Name, token: Token, before: map<Name, Container>,
      after: map<Name, Container>, oldLog: seq<Entry>, log: seq<Entry>)
    requires PreparedTo(units, pod, token, before, after, oldLog, log, |units|)
    ensures Free(units, before)
  {
  }

  /** ran is whether the unit runs now, which a start that erred may have come to. */
  method StartUnit(h: Host, pod: Name, u: Unit, token: Token) returns (ok: bool, ghost ran: bool)
    requires h.Valid() && Prepared(h.containers, pod, u, token)
    requires u.expected != [] ==> Verified(u.name, h.containers[u.name].ns, u.expected) in h.log
    modifies h`containers, h`log, h`misses, h`against, h`finals
    ensures h.Valid() && (ok ==> ran)
    ensures (ok <==> h.against == old(h.against)) && h.against >= old(h.against)
    ensures NoWriteMissed(old(h.misses), h.misses)
    ensures ran ==>
      && h.containers == old(h.containers)[u.name := old(h.containers)[u.name].(phase := Running)]
      && h.log == old(h.log) + [Started(u.name, old(h.containers)[u.name].ns, u.expected)]
    ensures !ran ==> h.containers == old(h.containers) && h.log == old(h.log)
  {
    var err;
    err, ran := h.Start(u.name, u.expected);
    if ran {
      SoundAfterStarted(old(h.log), u.name, h.containers[u.name].ns, u.expected);
    }
    ok := err == None;
  }

  /** The containers once the first i of the units run. */
  ghost predicate FirstRun(order: seq<Unit>, before: map<Name, Container>, after: map<Name, Container>, i: nat)
    requires Known(order, before, |order|)
  {
    && i <= |order| && after.Keys == before.Keys
    && (forall name <- before :: after[name].ns == before[name].ns)
    && (forall k | 0 <= k < i :: after[order[k].name] == before[order[k].name].(phase := Running))
    && (forall k | i <= k < |order| :: after[order[k].name] == before[order[k].name])
  }

  lemma FirstRunNext(order: seq<Unit>, before: map<Name, Container>, after: map<Name, Container>, i: nat)
    requires Known(order, before, |order|) && DistinctNames(order, |order|) && i < |order|
    requires FirstRun(order, before, after, i)
    ensures FirstRun(order, before, after[order[i].name := after[order[i].name].(phase := Running)], i + 1)
  {
  }

  /** The first i of the units were started, and nothing else was. */
  ghost predicate StartedTo(order: seq<Unit>, pod: Name, before: map<Name, Container>, after: map<Name, Container>,
      oldLog: seq<Entry>, log: seq<Entry>, i: nat)
  {
    && Known(order, before, |order|) && FirstRun(order, before, after, i)
    && log == oldLog + Starts(order, before, i)
    && Outside(after, pod) == Outside(before, pod)
  }

  ghost predicate AllVerified(order: seq<Unit>, containers: map<Name, Container>, log: seq<Entry>)
    requires Known(order, containers, |order|)
  {
    forall k | 0 <= k < |order| && order[k].expected != [] ::
      Verified(order[k].name, containers[order[k].name].ns, order[k].expected) in log
  }

  lemma NoneStarted(order: seq<Unit>, pod: Name, before: map<Name, Container>, log: seq<Entry>)
    requires Known(order, before, |order|)
    ensures StartedTo(order, pod, before, before, log, log, 0)
  {
  }

  /** The next unit of those that are all prepared and verified. */
  method StartNext(h: Host, pod: Name, order: seq<Unit>, token: Token, i: nat, ghost before: map<Name, Container>,
      ghost oldLog: seq<Entry>)
    returns (ok: bool, ghost ran: bool)
    requires h.Valid() && pod != "" && i < |order| && DistinctNames(order, |order|)
    requires StartedTo(order, pod, before, h.containers, oldLog, h.log, i)
    requires AllPrepared(before, pod, order, token, |order|) && AllVerified(order, before, oldLog)
    modifies h`containers, h`log, h`misses, h`against, h`finals
    ensures h.Valid() && NoWriteMissed(old(h.misses), h.misses) && (ok ==> ran)
    ensures (ok <==> h.against == old(h.against)) && h.against >= old(h.against)
    ensures StartedTo(order, pod, before, h.containers, oldLog, h.log, if ran then i + 1 else i)
  {
    FirstRunNext(order, before, h.containers, i);
    assert Prepared(before, pod, order[i], token);
    OutsideKeeps(h.containers, order[i].name, h.containers[order[i].name].(phase := Running), pod);
    ok, ran := StartUnit(h, pod, order[i], token);
  }

  /** Starts units that are all prepared and verified, in order, up to the first that will not. */
  method StartUnits(h: Host, pod: Name, order: seq<Unit>, token: Token) returns (ok: bool, ghost j: nat)
    requires h.Valid() && pod != "" && DistinctNames(order, |order|)
    requires AllPrepared(h.containers, pod, order, token, |order|) && Known(order, h.containers, |order|)
    requires AllVerified(order, h.containers, h.log)
    modifies h`containers, h`log, h`misses, h`against, h`finals
    ensures h.Valid() && NoWriteMissed(old(h.misses), h.misses)
    ensures (ok <==> h.against == old(h.against)) && h.against >= old(h.against)
    ensures j <= |order| && StartedTo(order, pod, old(h.containers), h.containers, old(h.log), h.log, j)
    ensures ok ==> j == |order|
  {
    hide StartedTo;
    j := 0;
    NoneStarted(order, pod, h.containers, h.log);
    for i := 0 to |order|
      invariant j == i && h.Valid() && NoWriteMissed(old(h.misses), h.misses) && h.against == old(h.against)
      invariant StartedTo(order, pod, old(h.containers), h.containers, old(h.log), h.log, i)
    {
      ghost var ran;
      ok, ran := StartNext(h, pod, order, token, i, old(h.containers), old(h.log));
      if ran {
        j := j + 1;
      }
      if !ok {
        return;
      }
    }
    ok := true;
  }

  /** What holds of every unit holds of every unit in start order. */
  lemma OrderReady(pod: Name, units: seq<Unit>, token: Token, made: map<Name, Container>, log: seq<Entry>)
    requires AllPrepared(made, pod, units, token, |units|) && DistinctNames(units, |units|)
    requires Known(units, made, |units|)
    requires forall e <- Checks(units, made, |units|) :: e in log
    ensures var order := InOrder(units);
      && |order| == |units| && DistinctNames(order, |order|)
      && AllPrepared(made, pod, order, token, |order|) && Known(order, made, |order|)
      && AllVerified(order, made, log)
  {
    var order := InOrder(units);
    InOrderSame(units);
    InOrderDistinct(units);
    forall k | 0 <= k < |order|
      ensures Prepared(made, pod, order[k], token)
      ensures order[k].expected != [] ==> Verified(order[k].name, made[order[k].name].ns, order[k].expected) in log
    {
      assert order[k] in units;
      var i :| 0 <= i < |units| && units[i] == order[k];
      if order[k].expected != [] {
        CheckedIsVerified(units, made, |units|, i);
      }
    }
  }

  /** Once every unit in start order runs, every unit does. */
  lemma OrderRuns(pod: Name, units: seq<Unit>, token: Token, made: map<Name, Container>, after: map<Name, Container>)
    requires AllPrepared(made, pod, units, token, |units|) && Known(InOrder(units), made, |InOrder(units)|)
    requires FirstRun(InOrder(units), made, after, |InOrder(units)|)
    ensures AllRunning(after, pod, units, token)
  {
    var order := InOrder(units);
    InOrderSame(units);
    forall i | 0 <= i < |units|
      ensures RunningIn(after, pod, units[i], token)
    {
      assert Prepared(made, pod, units[i], token);
      assert units[i] in order;
      var k :| 0 <= k < |order| && order[k] == units[i];
    }
  }

  /** The log of a pod that came up: each unit read once, in declared order, then each started in start order. */
  ghost predicate CameUp(units: seq<Unit>, containers: map<Name, Container>, entries: seq<Entry>) {
    && Known(units, containers, |units|) && |InOrder(units)| == |units|
    && Known(InOrder(units), containers, |units|)
    && entries == Checks(units, containers, |units|) + Starts(InOrder(units), containers, |units|)
  }

  lemma AllArePrepared(units: seq<Unit>, pod: Name, token: Token, before: map<Name, Container>,
      after: map<Name, Container>, oldLog: seq<Entry>, log: seq<Entry>)
    requires PreparedTo(units, pod, token, before, after, oldLog, log, |units|)
    ensures AllPrepared(after, pod, units, token, |units|) && DistinctNames(units, |units|)
      && Known(units, after, |units|)
    ensures log == oldLog + Checks(units, after, |units|) && Outside(after, pod) == Outside(before, pod)
  {
  }

  method RunUnits(h: Host, pod: Name, units: seq<Unit>, token: Token) returns (ok: bool, ghost entries: seq<Entry>)
    requires h.Valid() && pod != ""
    modifies h`containers, h`log, h`misses, h`against, h`finals
    ensures h.Valid() && h.against >= old(h.against)
    ensures pod in h.pods && h.against == old(h.against) ==> (ok <==> Free(units, old(h.containers)))
    ensures NoWriteMissed(old(h.misses), h.misses)
    ensures h.log == old(h.log) + entries && NothingRanEarly(entries, units)
    ensures ok ==> AllRunning(h.containers, pod, units, token) && CameUp(units, h.containers, entries)
    ensures Outside(h.containers, pod) == Outside(old(h.containers), pod)
  {
    var prepared := PrepareUnits(h, pod, units, token);
    if !prepared {
      entries := h.log[|old(h.log)|..];
      NothingStartedIsNotEarly(entries, units);
      return false, entries;
    }
    ghost var log := h.log;
    AllArePrepared(units, pod, token, old(h.containers), h.containers, old(h.log), log);
    PreparedIsFree(units, pod, token, old(h.containers), h.containers, old(h.log), log);
    hide PreparedTo, Outside, Free, CameUp, NothingRanEarly;
    ok, entries := RunPrepared(h, pod, units, token, old(h.log));
  }

  /** Starts the units of a pod that are all prepared and verified. */
  method RunPrepared(h: Host, pod: Name, units: seq<Unit>, token: Token, ghost oldLog: seq<Entry>)
    returns (ok: bool, ghost entries: seq<Entry>)
    requires h.Valid() && pod != "" && AllPrepared(h.containers, pod, units, token, |units|)
    requires DistinctNames(units, |units|) && Known(units, h.containers, |units|)
    requires h.log == oldLog + Checks(units, h.containers, |units|)
    modifies h`containers, h`log, h`misses, h`against, h`finals
    ensures h.Valid() && NoWriteMissed(old(h.misses), h.misses)
    ensures (ok <==> h.against == old(h.against)) && h.against >= old(h.against)
    ensures h.log == oldLog + entries && NothingRanEarly(entries, units)
    ensures ok ==> AllRunning(h.containers, pod, units, token) && CameUp(units, h.containers, entries)
    ensures Outside(h.containers, pod) == Outside(old(h.containers), pod)
  {
    hide Matches, Prepared, NothingRanEarly, AllRunning, CameUp;
    ghost var made := h.containers;
    var order := StartOrder(units);
    OrderReady(pod, units, token, made, h.log);
    ghost var j;
    ok, j := StartUnits(h, pod, order, token);
    entries := Checks(units, made, |units|) + Starts(order, made, j);
    ChecksThenStarts(units, made, Starts(order, made, j));
    if ok {
      PodCameUp(pod, units, token, made, h.containers, entries);
    }
  }

  lemma PodCameUp(pod: Name, units: seq<Unit>, token: Token, made: map<Name, Container>, after: map<Name, Container>,
      entries: seq<Entry>)
    requires AllPrepared(made, pod, units, token, |units|) && Known(units, made, |units|)
    requires |InOrder(units)| == |units| && Known(InOrder(units), made, |units|)
    requires FirstRun(InOrder(units), made, after, |units|)
    requires entries == Checks(units, made, |units|) + Starts(InOrder(units), made, |units|)
    ensures AllRunning(after, pod, units, token) && CameUp(units, after, entries)
  {
    EntriesKeep(units, made, after, |units|);
    EntriesKeep(InOrder(units), made, after, |units|);
    OrderRuns(pod, units, token, made, after);
  }

  /**
   The pod, then every unit created, prepared and verified, then every unit started with the face
   last. Whatever fails, the whole pod goes.
   */
  method RaisePod(h: Host, pod: Name, units: seq<Unit>, token: Token) returns (ok: bool, ghost entries: seq<Entry>)
    requires h.Valid() && pod != ""
    modifies h`containers, h`pods, h`log, h`misses, h`against, h`finals
    ensures h.Valid() && h.against >= old(h.against)
    ensures h.against == old(h.against) ==> (ok <==> pod !in old(h.pods) && Free(units, old(h.containers)))
    ensures NoWriteMissed(old(h.misses), h.misses)
    ensures h.log == old(h.log) + entries && NothingRanEarly(entries, units)
    ensures ok ==> AllRunning(h.containers, pod, units, token) && CameUp(units, h.containers, entries)
    ensures Outside(h.containers, pod) == Outside(old(h.containers), pod)
    ensures !ok ==> PodGone(h, pod) || Left(old(h.misses), h.misses)
    ensures h.pods - {pod} == old(h.pods) - {pod} && (ok ==> pod in h.pods)
  {
    entries := [];
    var err := h.CreatePod(pod);
    if err != None {
      TearDownPod(h, pod);
      return false, entries;
    }
    ok, entries := RunUnits(h, pod, units, token);
    if !ok {
      TearDownPod(h, pod);
    }
  }

  /** The pod is as it was; or, where a call that erred removed some of it all the same, what is left of it is. */
  ghost predicate Untouched(before: map<Name, Container>, podsBefore: set<Name>, h: Host, pod: Name, was: Misses)
    reads h
  {
    && LessOf(before, h.containers, pod) && podsBefore - {pod} <= h.pods <= podsBefore
    && (!Late(was, h.misses) ==> h.containers == before && h.pods == podsBefore)
  }

  /** Nothing of the pod was made or started, or nothing of it is left, or this very teardown of it failed. */
  ghost predicate NoneOfIt(h: Host, pod: Name, untouched: bool, was: Misses)
    reads h
  {
    untouched || PodGone(h, pod) || Left(was, h.misses)
  }

  /**
   A session's start of a Process of several units. prepared is what its units resolve to, or None
   where one of them is refused, and ready whether the name it is served under still proves.
   */
  method StartPod(h: Host, id: Id, pod: Name, prepared: Option<seq<Unit>>, ready: bool)
    returns (ok: bool, ghost entries: seq<Entry>)
    requires h.Valid() && pod != ""
    modifies h
    ensures h.Valid() && h.against >= old(h.against)
    ensures h.against == old(h.against) ==>
      (ok <==> prepared != None && ready && pod !in old(h.pods) && Free(prepared.value, old(h.containers)))
    ensures h.log == old(h.log) + entries && (prepared != None ==> NothingRanEarly(entries, prepared.value))
    ensures ok ==>
      && prepared != None && id in h.rows
      && AllRunning(h.containers, pod, prepared.value, h.rows[id]) && CameUp(prepared.value, h.containers, entries)
    ensures !ok ==>
      NoneOfIt(h, pod, h.containers == old(h.containers) && h.pods == old(h.pods) && entries == [], old(h.misses))
    ensures Outside(h.containers, pod) == Outside(old(h.containers), pod)
    ensures h.pods - {pod} == old(h.pods) - {pod} && h.rows - {id} == old(h.rows) - {id}
  {
    entries := [];
    if prepared == None || !ready {
      return false, entries;
    }
    var token := h.NewToken();
    var minted := h.Register(id, token);
    if !minted {
      return false, entries;
    }
    ok, entries := RaisePod(h, pod, prepared.value, token);
  }

  /** What one registration of the restore came to. */
  datatype Outcome = WasPlaced | WasRunning | WasHealed | HasFailed | IsMissing

  /** A container that is only prepared has a pid too, so the pid alone does not answer. */
  method PodRunning(found: seq<Container>) returns (running: bool)
    ensures running <==> found != [] && forall k | 0 <= k < |found| :: found[k].phase.Running? && found[k].ns.pid > 0
  {
    for i := 0 to |found|
      invariant forall k | 0 <= k < i :: found[k].phase.Running? && found[k].ns.pid > 0
    {
      if found[i].ns.pid <= 0 || !found[i].phase.Running? {
        return false;
      }
    }
    running := |found| > 0;
  }

  /** Makes a pod again from its registration. made is whether every command line of it could be written. */
  method RemakePod(h: Host, id: Id, pod: Name, units: seq<Unit>, made: bool)
    returns (ok: bool, ghost token: Token, ghost entries: seq<Entry>)
    requires h.Valid() && pod != ""
    modifies h
    ensures h.Valid() && h.against >= old(h.against)
    ensures h.against == old(h.against) ==> (ok <==> made && Free(units, Outside(old(h.containers), pod)))
    ensures h.log == old(h.log) + entries && NothingRanEarly(entries, units)
    ensures ok ==>
      && AllRunning(h.containers, pod, units, token) && CameUp(units, h.containers, entries)
      && CaughtUp(old(h.rows), h.rows, id, token, old(h.misses), h.misses)
    ensures !ok ==>
      && h.rows == old(h.rows) && h.misses.store == old(h.misses).store
      && NoneOfIt(h, pod, Untouched(old(h.containers), old(h.pods), h, pod, old(h.misses)) && entries == [],
           old(h.misses))
    ensures Onward(old(h.misses), h.misses)
    ensures Outside(h.containers, pod) == Outside(old(h.containers), pod)
    ensures h.pods - {pod} == old(h.pods) - {pod}
  {
    entries := [];
    var minted := h.NewToken();
    token := minted;
    if !made {
      return false, token, entries;
    }
    var err := h.RemovePod(pod);
    if err != None && err != Some(NoPod) {
      return false, token, entries;
    }
    ok, entries := RaisePod(h, pod, units, minted);
    if ok {
      var recorded := h.Register(id, minted);
    }
  }

  /** A unit as its registration declares it: its mounts as they resolve now, and whether its secrets do. */
  datatype Declared = Declared(name: Name, face: bool, resolved: Option<seq<Resolved>>, secrets: bool)

  /** Every unit the registration declares is legal now, and these are they. */
  ghost predicate Legal(declared: seq<Declared>, units: seq<Unit>) {
    && |units| == |declared|
    && forall k | 0 <= k < |units| :: declared[k].secrets && declared[k].resolved == Some(units[k].expected)
         && units[k] == Unit(declared[k].name, declared[k].face, units[k].expected)
  }

  /** Every unit of a pod that never stopped holds what was validated, read where it stands. */
  ghost predicate StillHolds(containers: map<Name, Container>, units: seq<Unit>) {
    units != [] && forall k | 0 <= k < |units| ::
      && units[k].name in containers
      && containers[units[k].name].phase.Running? && containers[units[k].name].ns.pid > 0
      && (units[k].expected != [] ==> Matches(containers[units[k].name].ns, units[k].expected))
  }

  /** Every unit the registration declares resolves, and the runtime has a container of it. */
  ghost predicate Findable(declared: seq<Declared>, containers: map<Name, Container>) {
    forall k | 0 <= k < |declared| :: declared[k].resolved != None && declared[k].secrets
      && declared[k].name in containers
  }

  /** Only reads: the units resolve, and each has a container. */
  method FindUnits(h: Host, declared: seq<Declared>)
    returns (ok: bool, units: seq<Unit>, found: seq<Container>)
    modifies h`against
    ensures h.against >= old(h.against)
    ensures ok <==> Findable(declared, h.containers) && h.against == old(h.against)
    ensures ok ==>
      && Legal(declared, units) && |found| == |units|
      && forall k | 0 <= k < |units| :: units[k].name in h.containers && found[k] == h.containers[units[k].name]
  {
    units, found := [], [];
    for i := 0 to |declared|
      invariant Legal(declared[..i], units) && |found| == i && h.against == old(h.against)
      invariant Findable(declared[..i], h.containers)
      invariant forall k | 0 <= k < i :: units[k].name in h.containers && found[k] == h.containers[units[k].name]
    {
      var d := declared[i];
      if d.resolved == None || !d.secrets {
        return false, units, found;
      }
      var err, config := h.Config(d.name);
      if err != None {
        return false, units, found;
      }
      units := units + [Unit(d.name, d.face, d.resolved.value)];
      found := found + [config.value];
    }
    assert declared[..|declared|] == declared;
    ok := true;
  }

  /** Every container of the declared units runs. */
  ghost predicate AllUp(declared: seq<Declared>, containers: map<Name, Container>)
    requires Findable(declared, containers)
  {
    declared != [] && forall k | 0 <= k < |declared| ::
      containers[declared[k].name].phase.Running? && containers[declared[k].name].ns.pid > 0
  }

  ghost predicate AllMatch(declared: seq<Declared>, containers: map<Name, Container>)
    requires Findable(declared, containers)
  {
    forall k | 0 <= k < |declared| :: declared[k].resolved.value != [] ==>
      Matches(containers[declared[k].name].ns, declared[k].resolved.value)
  }

  /** No two units share a name, and nothing outside of the pod has one of them. */
  ghost predicate Remakable(declared: seq<Declared>, pod: Name, containers: map<Name, Container>) {
    && (forall j, k | 0 <= j < k < |declared| :: declared[j].name != declared[k].name)
    && forall k | 0 <= k < |declared| :: declared[k].name !in Outside(containers, pod)
  }

  /** What the restore of a pod comes to where nothing stands against it. */
  ghost function PodDue(declared: seq<Declared>, made: bool, pod: Name, containers: map<Name, Container>,
      pods: set<Name>)
    : Outcome
  {
    if pod !in pods then IsMissing
    else if !Findable(declared, containers) then HasFailed
    else if AllUp(declared, containers) then (if AllMatch(declared, containers) then WasRunning else HasFailed)
    else if made && Remakable(declared, pod, containers) then WasPlaced
    else HasFailed
  }

  lemma LegalNames(declared: seq<Declared>, units: seq<Unit>, pod: Name, containers: map<Name, Container>)
    requires Legal(declared, units)
    ensures Free(units, Outside(containers, pod)) <==> Remakable(declared, pod, containers)
  {
    assert forall k | 0 <= k < |units| :: units[k].name == declared[k].name;
  }

  /** Reads the namespaces of a pod that runs, unit by unit. */
  method ReadRunning(h: Host, units: seq<Unit>, found: seq<Container>) returns (right: bool)
    requires |found| == |units|
    modifies h`against
    ensures h.against >= old(h.against)
    ensures right <==>
      && h.against == old(h.against)
      && forall k | 0 <= k < |units| && units[k].expected != [] :: Matches(found[k].ns, units[k].expected)
  {
    for i := 0 to |found|
      invariant h.against == old(h.against)
      invariant forall k | 0 <= k < i && units[k].expected != [] :: Matches(found[k].ns, units[k].expected)
    {
      var unreadable := h.Unreadable(units[i].expected);
      right := VerifyConfig(found[i], units[i].expected, unreadable);
      if !right {
        return;
      }
    }
    right := true;
  }

  method RestorePod(h: Host, id: Id, pod: Name, declared: seq<Declared>, made: bool)
    returns (outcome: Outcome, ghost units: seq<Unit>, ghost token: Token)
    requires h.Valid() && pod != ""
    modifies h
    ensures h.Valid() && h.against >= old(h.against)
    ensures h.against == old(h.against) ==> outcome == PodDue(declared, made, pod, old(h.containers), old(h.pods))
    ensures outcome == IsMissing <==> pod !in old(h.pods)
    ensures outcome.WasPlaced? ==>
      && Legal(declared, units) && AllRunning(h.containers, pod, units, token)
      && CaughtUp(old(h.rows), h.rows, id, token, old(h.misses), h.misses)
    ensures outcome.WasRunning? ==> Legal(declared, units) && StillHolds(h.containers, units)
    ensures outcome.WasRunning? || outcome.IsMissing? ==>
      && h.against == old(h.against) && h.finals == old(h.finals) && h.containers == old(h.containers)
      && h.pods == old(h.pods)
      && h.log == old(h.log) && h.misses == old(h.misses)
    ensures !outcome.WasPlaced? ==> h.misses.store == old(h.misses).store
    ensures Onward(old(h.misses), h.misses)
    ensures !outcome.WasHealed?
    ensures old(h.log) <= h.log && (outcome.WasPlaced? ==> NothingRanEarly(h.log[|old(h.log)|..], units))
    ensures outcome.HasFailed? ==>
      NoneOfIt(h, pod, Untouched(old(h.containers), old(h.pods), h, pod, old(h.misses)) && h.log == old(h.log),
        old(h.misses))
    ensures !outcome.WasPlaced? ==> h.rows == old(h.rows)
    ensures Outside(h.containers, pod) == Outside(old(h.containers), pod)
    ensures h.pods - {pod} == old(h.pods) - {pod}
  {
    hide AllRunning, CaughtUp, NothingRanEarly, CameUp;
    units, token := [], 0;
    var err := h.PodState(pod);
    if err == Some(NoPod) {
      return IsMissing, units, token;
    } else if err != None {
      return HasFailed, units, token;
    }
    var whole, from, found := FindUnits(h, declared);
    units := from;
    if !whole {
      return HasFailed, units, token;
    }
    var running := PodRunning(found);
    if running {
      var right := ReadRunning(h, from, found);
      if !right {
        TearDownPod(h, pod);
        return HasFailed, units, token;
      }
      return WasRunning, units, token;
    }
    LegalNames(declared, from, pod, h.containers);
    ghost var entries;
    var ok;
    ok, token, entries := RemakePod(h, id, pod, from, made);
    outcome := if ok then WasPlaced else HasFailed;
  }
}
