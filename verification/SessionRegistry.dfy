/**
 The live MCP sessions of every Process and the caller credentials they carry. A session can be ended
 by a delete, an idle sweep, its child going or the daemon stopping, all at once; its credential
 outlives it by a grace.
 */
module SessionRegistries {
  import opened Collections

  type Process = string
  type Credential = string
  type Time = int
  type Thread = nat

  /** A session is its address. */
  type Sess = nat

  const MAX_SESSIONS := 8

  /** until is none while the session is open. */
  datatype Caller = Caller(process: Process, until: Option<Time>)

  datatype Registry = Registry(byProcess: map<Process, seq<Sess>>, byCredential: map<Credential, Caller>)

  function ListOf(r: Registry, p: Process): seq<Sess> {
    if p in r.byProcess then r.byProcess[p] else []
  }

  function Without(list: seq<Sess>, sess: Sess): seq<Sess> {
    if list == [] then []
    else Without(list[..|list| - 1], sess) + if list[|list| - 1] != sess then [list[|list| - 1]] else []
  }

  predicate HasRoom(r: Registry, p: Process, max: nat) {
    |ListOf(r, p)| < max
  }

  function Added(r: Registry, sess: Sess, p: Process, credential: Credential): Registry {
    Registry(r.byProcess[p := ListOf(r, p) + [sess]], r.byCredential[credential := Caller(p, None)])
  }

  function Dropped(r: Registry, sess: Sess, p: Process, credential: Credential, until: Time): Registry {
    var rest := Without(ListOf(r, p), sess);
    Registry(
      if rest == [] then r.byProcess - {p} else r.byProcess[p := rest],
      if credential in r.byCredential && r.byCredential[credential].until == None
      then r.byCredential[credential := r.byCredential[credential].(until := Some(until))]
      else r.byCredential)
  }

  predicate Over(caller: Caller, now: Time) {
    caller.until != None && now > caller.until.value
  }

  function Expired(r: Registry, now: Time): Registry {
    r.(byCredential := map c | c in r.byCredential && !Over(r.byCredential[c], now) :: r.byCredential[c])
  }

  function CallerOf(r: Registry, credential: Credential, now: Time): Option<Process> {
    if credential == "" || credential !in r.byCredential || Over(r.byCredential[credential], now) then None
    else Some(r.byCredential[credential].process)
  }

  class McpRegistry {
    var byProcess: map<Process, seq<Sess>>
    var byCredential: map<Credential, Caller>

    ghost function View(): Registry
      reads this
    {
      Registry(byProcess, byCredential)
    }

    constructor ()
      ensures View() == Registry(map[], map[])
    {
      byProcess, byCredential := map[], map[];
    }

    method Add(sess: Sess, process: Process, credential: Credential, max: nat) returns (ok: bool)
      modifies this
      ensures ok == HasRoom(old(View()), process, max)
      ensures View() == if ok then Added(old(View()), sess, process, credential) else old(View())
    {
      var held := if process in byProcess then byProcess[process] else [];
      if |held| >= max {
        return false;
      }
      byProcess := byProcess[process := held + [sess]];
      byCredential := byCredential[credential := Caller(process, None)];
      ok := true;
    }

    method CallerIs(credential: Credential, now: Time) returns (process: Option<Process>)
      ensures process == CallerOf(View(), credential, now)
    {
      if credential == "" {
        return None;
      }
      if credential !in byCredential {
        return None;
      }
      var held := byCredential[credential];
      if held.until != None && now > held.until.value {
        return None;
      }
      process := Some(held.process);
    }

    method Expire(now: Time)
      modifies this`byCredential
      ensures View() == Expired(old(View()), now)
    {
      var keys := Enumerate(byCredential);
      for i := 0 to |keys|
        invariant forall c <- byCredential :: c in old(byCredential) && byCredential[c] == old(byCredential)[c]
        invariant forall c <- old(byCredential) :: c in byCredential || Over(old(byCredential)[c], now)
        invariant forall k | 0 <= k < i :: keys[k] in byCredential ==> !Over(byCredential[keys[k]], now)
        invariant forall c <- old(byCredential) :: c in keys
      {
        if keys[i] in byCredential && Over(byCredential[keys[i]], now) {
          byCredential := byCredential - {keys[i]};
        }
      }
    }

    method Drop(sess: Sess, process: Process, credential: Credential, until: Time)
      modifies this
      ensures View() == Dropped(old(View()), sess, process, credential, until)
    {
      if credential in byCredential && byCredential[credential].until == None {
        byCredential := byCredential[credential := byCredential[credential].(until := Some(until))];
      }
      var held := if process in byProcess then byProcess[process] else [];
      var rest: seq<Sess> := [];
      for i := 0 to |held|
        invariant rest == Without(held[..i], sess)
      {
        assert held[..i + 1][..i] == held[..i];
        if held[i] != sess {
          rest := rest + [held[i]];
        }
      }
      assert held[..|held|] == held;
      if |rest| == 0 {
        byProcess := byProcess - {process};
      } else {
        byProcess := byProcess[process := rest];
      }
    }
  }

  /** The one field of a session that its enders race for. */
  class McpSession {
    var ended: bool

    constructor ()
      ensures !ended
    {
      ended := false;
    }

    method Claim() returns (first: bool)
      modifies this
      ensures ended && first == !old(ended)
    {
      first := !ended;
      ended := true;
    }
  }

  datatype Session = Session(process: Process, credential: Credential, ended: bool)

  /** An ender past the test, before and after it closed the session's channel. */
  datatype Ender = Claimed(sess: Sess, until: Time) | Closed(sess: Sess, until: Time)

  /**
   sessions are the ones that were given a slot. claimer, added, owner, dropped, drops and closes only record what
   happened, and clock is the latest time credentials were expired at.
   */
  datatype State = State(
    registry: Registry, sessions: map<Sess, Session>, enders: map<Thread, Ender>, claimer: map<Sess, Thread>,
    added: seq<Sess>, owner: map<Credential, Sess>, dropped: map<Sess, Time>, drops: map<Sess, nat>,
      closes: map<Sess, nat>,
    clock: Time)

  datatype Event =
    | Add(sess: Sess, process: Process, credential: Credential)
    | End(t: Thread, sess: Sess, until: Time)
    | Close(t: Thread)
    | Drop(t: Thread)
    | Expire(now: Time)

  function START(clock: Time): State {
    State(Registry(map[], map[]), map[], map[], map[], [], map[], map[], map[], map[], clock)
  }

  /** A session is made with a credential nobody has, and time does not go back. */
  predicate Enabled(s: State, e: Event) {
    match e
    case Add(sess, _, credential) => sess !in s.sessions && credential != "" && credential !in s.owner
    case End(t, sess, _) => t !in s.enders && sess in s.sessions
    case Close(t) => t in s.enders && s.enders[t].Claimed?
    case Drop(t) => t in s.enders && s.enders[t].Closed? && s.enders[t].sess in s.sessions
    case Expire(now) => now >= s.clock
  }

  function Count(m: map<Sess, nat>, sess: Sess): nat {
    if sess in m then m[sess] else 0
  }

  function Apply(s: State, e: Event): State
    requires Enabled(s, e)
  {
    match e
    case Add(sess, process, credential) =>
      if !HasRoom(s.registry, process, MAX_SESSIONS) then s
      else
        s.(registry := Added(s.registry, sess, process, credential),
           sessions := s.sessions[sess := Session(process, credential, false)],
           added := s.added + [sess], owner := s.owner[credential := sess])
    case End(t, sess, until) =>
      if s.sessions[sess].ended then s
      else
        s.(sessions := s.sessions[sess := s.sessions[sess].(ended := true)],
           enders := s.enders[t := Claimed(sess, until)], claimer := s.claimer[sess := t])
    case Close(t) =>
      var ender := s.enders[t];
      s.(enders := s.enders[t := Closed(ender.sess, ender.until)],
         closes := s.closes[ender.sess := Count(s.closes, ender.sess) + 1])
    case Drop(t) =>
      var sess, until := s.enders[t].sess, s.enders[t].until;
      s.(registry := Dropped(s.registry, sess, s.sessions[sess].process, s.sessions[sess].credential, until),
         enders := s.enders - {t}, dropped := s.dropped[sess := until],
         drops := s.drops[sess := Count(s.drops, sess) + 1])
    case Expire(now) => s.(registry := Expired(s.registry, now), clock := now)
  }

  function Run(clock: Time, es: seq<Event>): Option<State> {
    if es == [] then Some(START(clock))
    else
      match Run(clock, es[..|es| - 1])
      case None => None
      case Some(s) => if Enabled(s, es[|es| - 1]) then Some(Apply(s, es[|es| - 1])) else None
  }

  /** The sessions a Process was given and has not lost, in the order it was given them. */
  function Live(added: seq<Sess>, sessions: map<Sess, Session>, dropped: map<Sess, Time>, p: Process): seq<Sess> {
    if added == [] then []
    else
      var sess := added[|added| - 1];
      Live(added[..|added| - 1], sessions, dropped, p)
        + if sess in sessions && sessions[sess].process == p && sess !in dropped then [sess] else []
  }

  ghost predicate ListsAreLive(s: State) {
    && (forall p :: ListOf(s.registry, p) == Live(s.added, s.sessions, s.dropped, p))
    && (forall p <- s.registry.byProcess :: 0 < |s.registry.byProcess[p]| <= MAX_SESSIONS)
  }

  /** A session that ended has one ender on its way, or was dropped; one that did not has none. */
  ghost predicate OneEnder(s: State) {
    && (forall t <- s.enders ::
          var sess := s.enders[t].sess;
          && sess in s.sessions && s.sessions[sess].ended && sess !in s.dropped
          && sess in s.claimer && s.claimer[sess] == t)
    && (forall sess <- s.sessions :: s.sessions[sess].ended && sess !in s.dropped ==>
          sess in s.claimer && s.claimer[sess] in s.enders && s.enders[s.claimer[sess]].sess == sess)
    && (forall sess <- s.dropped :: sess in s.sessions && s.sessions[sess].ended)
    && (forall sess :: sess in s.added <==> sess in s.sessions)
  }

  ghost predicate CountsAreExact(s: State) {
    && (forall sess :: Count(s.drops, sess) == if sess in s.dropped then 1 else 0)
    && (forall sess <- s.dropped :: Count(s.closes, sess) == 1)
    && (forall t <- s.enders :: Count(s.closes, s.enders[t].sess) == if s.enders[t].Closed? then 1 else 0)
    && (forall sess | sess !in s.sessions || !s.sessions[sess].ended :: Count(s.closes, sess) == 0)
  }

  /** Every credential the registry knows was made for one session, and every session has one. */
  ghost predicate CredentialsOwned(s: State) {
    && (forall c <- s.registry.byCredential :: c in s.owner)
    && (forall c <- s.owner :: c != "" && s.owner[c] in s.sessions && s.sessions[s.owner[c]].credential == c)
    && (forall sess <- s.sessions :: s.sessions[sess].credential in s.owner
         && s.owner[s.sessions[sess].credential] == sess)
  }

  /** A credential says what became of its session, unless its grace is over and it was forgotten. */
  ghost predicate Tells(s: State, c: Credential, p: Process, dropped: Option<Time>) {
    if dropped == None then c in s.registry.byCredential && s.registry.byCredential[c] == Caller(p, None)
    else if c in s.registry.byCredential then s.registry.byCredential[c] == Caller(p, dropped)
    else s.clock > dropped.value
  }

  function DroppedAt(s: State, sess: Sess): Option<Time> {
    if sess in s.dropped then Some(s.dropped[sess]) else None
  }

  ghost predicate CredentialsTell(s: State) {
    && CredentialsOwned(s)
    && forall sess <- s.sessions ::
         Tells(s, s.sessions[sess].credential, s.sessions[sess].process, DroppedAt(s, sess))
  }

  ghost predicate Inv(s: State) {
    ListsAreLive(s) && OneEnder(s) && CountsAreExact(s) && CredentialsTell(s)
  }

  lemma AddKeepsEnders(s: State, sess: Sess, process: Process, credential: Credential)
    requires OneEnder(s) && Enabled(s, Add(sess, process, credential))
    ensures OneEnder(Apply(s, Add(sess, process, credential)))
  {
  }

  lemma EndKeepsEnders(s: State, t: Thread, sess: Sess, until: Time)
    requires OneEnder(s) && Enabled(s, End(t, sess, until))
    ensures OneEnder(Apply(s, End(t, sess, until)))
  {
  }

  lemma CloseKeepsEnders(s: State, t: Thread)
    requires OneEnder(s) && Enabled(s, Close(t))
    ensures OneEnder(Apply(s, Close(t)))
  {
  }

  lemma DropKeepsEnders(s: State, t: Thread)
    requires OneEnder(s) && Enabled(s, Drop(t))
    ensures OneEnder(Apply(s, Drop(t)))
  {
  }

  lemma StepKeepsEnders(s: State, e: Event)
    requires OneEnder(s) && Enabled(s, e)
    ensures OneEnder(Apply(s, e))
  {
    match e
    case Add(sess, process, credential) => AddKeepsEnders(s, sess, process, credential);
    case End(t, sess, until) => EndKeepsEnders(s, t, sess, until);
    case Close(t) => CloseKeepsEnders(s, t);
    case Drop(t) => DropKeepsEnders(s, t);
    case Expire(_) =>
  }

  lemma AddKeepsCounts(s: State, sess: Sess, process: Process, credential: Credential)
    requires OneEnder(s) && CountsAreExact(s) && Enabled(s, Add(sess, process, credential))
    ensures CountsAreExact(Apply(s, Add(sess, process, credential)))
  {
  }

  lemma EndClosesNothing(s: State, t: Thread, sess: Sess, until: Time, u: Thread)
    requires CountsAreExact(s) && Enabled(s, End(t, sess, until)) && u in Apply(s, End(t, sess, until)).enders
    ensures var s' := Apply(s, End(t, sess, until));
      Count(s'.closes, s'.enders[u].sess) == if s'.enders[u].Closed? then 1 else 0
  {
  }

  lemma EndKeepsCounts(s: State, t: Thread, sess: Sess, until: Time)
    requires CountsAreExact(s) && Enabled(s, End(t, sess, until))
    ensures CountsAreExact(Apply(s, End(t, sess, until)))
  {
    var s' := Apply(s, End(t, sess, until));
    forall u <- s'.enders
      ensures Count(s'.closes, s'.enders[u].sess) == if s'.enders[u].Closed? then 1 else 0
    {
      EndClosesNothing(s, t, sess, until, u);
    }
    hide Count;
  }

  lemma CloseKeepsCounts(s: State, t: Thread)
    requires OneEnder(s) && CountsAreExact(s) && Enabled(s, Close(t))
    ensures CountsAreExact(Apply(s, Close(t)))
  {
  }

  lemma DropKeepsCounts(s: State, t: Thread)
    requires OneEnder(s) && CountsAreExact(s) && Enabled(s, Drop(t))
    ensures CountsAreExact(Apply(s, Drop(t)))
  {
  }

  lemma StepKeepsCounts(s: State, e: Event)
    requires OneEnder(s) && CountsAreExact(s) && Enabled(s, e)
    ensures CountsAreExact(Apply(s, e))
  {
    match e
    case Add(sess, process, credential) => AddKeepsCounts(s, sess, process, credential);
    case End(t, sess, until) => EndKeepsCounts(s, t, sess, until);
    case Close(t) => CloseKeepsCounts(s, t);
    case Drop(t) => DropKeepsCounts(s, t);
    case Expire(_) =>
  }

  lemma AddKeepsOwners(s: State, sess: Sess, process: Process, credential: Credential)
    requires CredentialsOwned(s) && Enabled(s, Add(sess, process, credential))
    ensures CredentialsOwned(Apply(s, Add(sess, process, credential)))
  {
  }

  lemma AddKeepsCredentials(s: State, sess: Sess, process: Process, credential: Credential)
    requires OneEnder(s) && CredentialsTell(s) && Enabled(s, Add(sess, process, credential))
    ensures CredentialsTell(Apply(s, Add(sess, process, credential)))
  {
    var s' := Apply(s, Add(sess, process, credential));
    AddKeepsOwners(s, sess, process, credential);
    forall x <- s'.sessions
      ensures Tells(s', s'.sessions[x].credential, s'.sessions[x].process, DroppedAt(s', x))
    {
      if x in s.sessions {
        assert Tells(s, s.sessions[x].credential, s.sessions[x].process, DroppedAt(s, x));
      }
    }
  }

  /** Whose a credential is stays, as long as no session comes and none changes it. */
  lemma SameOwners(s: State, s': State)
    requires CredentialsOwned(s) && s'.owner == s.owner && s'.sessions.Keys == s.sessions.Keys
    requires forall x <- s.sessions :: s'.sessions[x].credential == s.sessions[x].credential
    requires s'.registry.byCredential.Keys <= s.registry.byCredential.Keys
    ensures CredentialsOwned(s')
  {
  }

  lemma EndTells(s: State, t: Thread, sess: Sess, until: Time, x: Sess)
    requires CredentialsTell(s) && Enabled(s, End(t, sess, until)) && x in s.sessions
    ensures var s' := Apply(s, End(t, sess, until));
      x in s'.sessions && Tells(s', s'.sessions[x].credential, s'.sessions[x].process, DroppedAt(s', x))
  {
    assert Tells(s, s.sessions[x].credential, s.sessions[x].process, DroppedAt(s, x));
  }

  lemma EndKeepsCredentials(s: State, t: Thread, sess: Sess, until: Time)
    requires CredentialsTell(s) && Enabled(s, End(t, sess, until))
    ensures CredentialsTell(Apply(s, End(t, sess, until)))
  {
    var s' := Apply(s, End(t, sess, until));
    SameOwners(s, s');
    hide CredentialsOwned;
    hide Tells;
    forall x <- s'.sessions
      ensures Tells(s', s'.sessions[x].credential, s'.sessions[x].process, DroppedAt(s', x))
    {
      EndTells(s, t, sess, until, x);
    }
  }

  lemma CloseKeepsCredentials(s: State, t: Thread)
    requires CredentialsTell(s) && Enabled(s, Close(t))
    ensures CredentialsTell(Apply(s, Close(t)))
  {
    var s' := Apply(s, Close(t));
    SameOwners(s, s');
    hide CredentialsOwned;
    forall x <- s'.sessions
      ensures Tells(s', s'.sessions[x].credential, s'.sessions[x].process, DroppedAt(s', x))
    {
      assert Tells(s, s.sessions[x].credential, s.sessions[x].process, DroppedAt(s, x));
    }
  }

  lemma DropTells(s: State, t: Thread, x: Sess)
    requires OneEnder(s) && CredentialsTell(s) && Enabled(s, Drop(t)) && x in s.sessions
    ensures var s' := Apply(s, Drop(t));
      x in s'.sessions && Tells(s', s'.sessions[x].credential, s'.sessions[x].process, DroppedAt(s', x))
  {
    assert Tells(s, s.sessions[x].credential, s.sessions[x].process, DroppedAt(s, x));
  }

  lemma DropKeepsCredentials(s: State, t: Thread)
    requires OneEnder(s) && CredentialsTell(s) && Enabled(s, Drop(t))
    ensures CredentialsTell(Apply(s, Drop(t)))
  {
    var s' := Apply(s, Drop(t));
    SameOwners(s, s');
    hide CredentialsOwned;
    hide Tells;
    forall x <- s'.sessions
      ensures Tells(s', s'.sessions[x].credential, s'.sessions[x].process, DroppedAt(s', x))
    {
      DropTells(s, t, x);
    }
  }

  lemma ExpireTells(s: State, now: Time, x: Sess)
    requires CredentialsTell(s) && Enabled(s, Expire(now)) && x in s.sessions
    ensures var s' := Apply(s, Expire(now));
      x in s'.sessions && Tells(s', s'.sessions[x].credential, s'.sessions[x].process, DroppedAt(s', x))
  {
    assert Tells(s, s.sessions[x].credential, s.sessions[x].process, DroppedAt(s, x));
  }

  /** A credential is only forgotten once its grace is over at a time that will not come back. */
  lemma ExpireKeepsCredentials(s: State, now: Time)
    requires CredentialsTell(s) && Enabled(s, Expire(now))
    ensures CredentialsTell(Apply(s, Expire(now)))
  {
    var s' := Apply(s, Expire(now));
    SameOwners(s, s');
    hide CredentialsOwned;
    hide Tells;
    forall x <- s'.sessions
      ensures Tells(s', s'.sessions[x].credential, s'.sessions[x].process, DroppedAt(s', x))
    {
      ExpireTells(s, now, x);
    }
  }

  lemma StepKeepsCredentials(s: State, e: Event)
    requires OneEnder(s) && CredentialsTell(s) && Enabled(s, e)
    ensures CredentialsTell(Apply(s, e))
  {
    hide CredentialsTell;
    match e
    case Add(sess, process, credential) => AddKeepsCredentials(s, sess, process, credential);
    case End(t, sess, until) => EndKeepsCredentials(s, t, sess, until);
    case Close(t) => CloseKeepsCredentials(s, t);
    case Drop(t) => DropKeepsCredentials(s, t);
    case Expire(now) => ExpireKeepsCredentials(s, now);
  }

  /** A list depends only on whose its sessions are, and which are dropped. */
  lemma {:induction false} LiveSame(added: seq<Sess>, a: map<Sess, Session>, b: map<Sess, Session>,
      dropped: map<Sess, Time>, p: Process)
    requires forall sess <- added :: sess in a && sess in b && a[sess].process == b[sess].process
    ensures Live(added, a, dropped, p) == Live(added, b, dropped, p)
  {
    if added != [] {
      assert added[|added| - 1] in added;
      LiveSame(added[..|added| - 1], a, b, dropped, p);
    }
  }

  lemma {:induction false} LiveWithout(added: seq<Sess>, sessions: map<Sess, Session>, dropped: map<Sess, Time>,
      p: Process, sess: Sess, until: Time)
    ensures Live(added, sessions, dropped[sess := until], p) == Without(Live(added, sessions, dropped, p), sess)
  {
    if added != [] {
      var init, last := added[..|added| - 1], added[|added| - 1];
      LiveWithout(init, sessions, dropped, p, sess, until);
      var list := Live(init, sessions, dropped, p);
      assert (list + [last])[..|list + [last]| - 1] == list;
      if !(last in sessions && sessions[last].process == p && last !in dropped) {
        assert Live(added, sessions, dropped, p) == list;
        assert Live(added, sessions, dropped[sess := until], p) == Live(init, sessions, dropped[sess := until], p);
      } else {
        assert Live(added, sessions, dropped, p) == list + [last];
      }
    }
  }

  lemma {:induction false} LiveAreTheirs(added: seq<Sess>, sessions: map<Sess, Session>, dropped: map<Sess, Time>,
      p: Process)
    ensures forall sess <- Live(added, sessions, dropped, p) ::
      sess in added && sess in sessions && sessions[sess].process == p && sess !in dropped
  {
    if added != [] {
      assert forall sess <- added[..|added| - 1] :: sess in added;
      LiveAreTheirs(added[..|added| - 1], sessions, dropped, p);
    }
  }

  lemma {:induction false} WithoutAbsent(list: seq<Sess>, sess: Sess)
    ensures |Without(list, sess)| <= |list|
    ensures sess !in list ==> Without(list, sess) == list
  {
    if list != [] {
      assert list == list[..|list| - 1] + [list[|list| - 1]];
      WithoutAbsent(list[..|list| - 1], sess);
    }
  }

  lemma AddedList(r: Registry, sess: Sess, process: Process, credential: Credential, p: Process)
    ensures ListOf(Added(r, sess, process, credential), p) == ListOf(r, p) + if p == process then [sess] else []
  {
  }

  lemma AddKeepsList(s: State, sess: Sess, process: Process, credential: Credential, p: Process)
    requires OneEnder(s) && ListsAreLive(s) && Enabled(s, Add(sess, process, credential))
    ensures var s' := Apply(s, Add(sess, process, credential));
      ListOf(s'.registry, p) == Live(s'.added, s'.sessions, s'.dropped, p)
  {
    var s' := Apply(s, Add(sess, process, credential));
    assert ListOf(s.registry, p) == Live(s.added, s.sessions, s.dropped, p);
    if HasRoom(s.registry, process, MAX_SESSIONS) {
      assert s'.added[..|s'.added| - 1] == s.added;
      LiveSame(s.added, s.sessions, s'.sessions, s.dropped, p);
      AddedList(s.registry, sess, process, credential, p);
    }
  }

  lemma AddKeepsLists(s: State, sess: Sess, process: Process, credential: Credential)
    requires OneEnder(s) && ListsAreLive(s) && Enabled(s, Add(sess, process, credential))
    ensures ListsAreLive(Apply(s, Add(sess, process, credential)))
  {
    forall p {
      AddKeepsList(s, sess, process, credential, p);
    }
    if HasRoom(s.registry, process, MAX_SESSIONS) {
      AddedList(s.registry, sess, process, credential, process);
    }
  }

  lemma DroppedList(r: Registry, sess: Sess, process: Process, credential: Credential, until: Time, p: Process)
    ensures ListOf(Dropped(r, sess, process, credential, until), p)
      == if p == process then Without(ListOf(r, p), sess) else ListOf(r, p)
  {
  }

  lemma DropKeepsList(s: State, t: Thread, p: Process)
    requires OneEnder(s) && ListsAreLive(s) && Enabled(s, Drop(t))
    ensures var s' := Apply(s, Drop(t)); ListOf(s'.registry, p) == Live(s'.added, s'.sessions, s'.dropped, p)
  {
    var sess, until := s.enders[t].sess, s.enders[t].until;
    var list := Live(s.added, s.sessions, s.dropped, p);
    assert ListOf(s.registry, p) == list;
    DroppedList(s.registry, sess, s.sessions[sess].process, s.sessions[sess].credential, until, p);
    LiveWithout(s.added, s.sessions, s.dropped, p, sess, until);
    LiveAreTheirs(s.added, s.sessions, s.dropped, p);
    WithoutAbsent(list, sess);
  }

  lemma DropKeepsLists(s: State, t: Thread)
    requires OneEnder(s) && ListsAreLive(s) && Enabled(s, Drop(t))
    ensures ListsAreLive(Apply(s, Drop(t)))
  {
    forall p {
      DropKeepsList(s, t, p);
    }
    WithoutAbsent(ListOf(s.registry, s.sessions[s.enders[t].sess].process), s.enders[t].sess);
  }

  lemma StepKeepsLists(s: State, e: Event)
    requires OneEnder(s) && ListsAreLive(s) && Enabled(s, e)
    ensures ListsAreLive(Apply(s, e))
  {
    match e
    case Add(sess, process, credential) => AddKeepsLists(s, sess, process, credential);
    case End(t, sess, until) => EndKeepsLists(s, t, sess, until);
    case Close(t) => hide OneEnder;
    case Drop(t) => DropKeepsLists(s, t);
    case Expire(now) => hide OneEnder;
  }

  lemma EndKeepsLists(s: State, t: Thread, sess: Sess, until: Time)
    requires OneEnder(s) && ListsAreLive(s) && Enabled(s, End(t, sess, until))
    ensures ListsAreLive(Apply(s, End(t, sess, until)))
  {
    var s' := Apply(s, End(t, sess, until));
    forall p
      ensures Live(s.added, s.sessions, s.dropped, p) == Live(s.added, s'.sessions, s.dropped, p)
    {
      LiveSame(s.added, s.sessions, s'.sessions, s.dropped, p);
    }
  }

  lemma {:induction false} RunKeepsInv(clock: Time, es: seq<Event>)
    requires Run(clock, es).Some?
    ensures Inv(Run(clock, es).value)
  {
    if es != [] {
      var init, e := es[..|es| - 1], es[|es| - 1];
      RunKeepsInv(clock, init);
      var s := Run(clock, init).value;
      StepKeepsEnders(s, e);
      StepKeepsCounts(s, e);
      StepKeepsCredentials(s, e);
      StepKeepsLists(s, e);
    }
  }

  /** A Process's list is the sessions it was given and has not lost, in that order, and never more than eight. */
  lemma SlotsAreExact(clock: Time, es: seq<Event>, p: Process)
    requires Run(clock, es).Some?
    ensures var s := Run(clock, es).value;
      && ListOf(s.registry, p) == Live(s.added, s.sessions, s.dropped, p)
      && |ListOf(s.registry, p)| <= MAX_SESSIONS
      && (p in s.registry.byProcess <==> Live(s.added, s.sessions, s.dropped, p) != [])
  {
    RunKeepsInv(clock, es);
    var s := Run(clock, es).value;
    assert ListOf(s.registry, p) == Live(s.added, s.sessions, s.dropped, p);
  }

  /** A grace is started once: whoever drops the session again does not put it off. */
  lemma GraceStartsOnce(r: Registry, sess: Sess, p: Process, credential: Credential, until: Time, later: Time)
    ensures var once := Dropped(r, sess, p, credential, until);
      Dropped(once, sess, p, credential, later).byCredential == once.byCredential
  {
  }

  /** A session is refused exactly where its Process has as many that it was given and has not lost as it may have. */
  lemma RefusedExactlyWhenFull(clock: Time, es: seq<Event>, sess: Sess, p: Process, credential: Credential)
    requires Run(clock, es).Some? && Enabled(Run(clock, es).value, Add(sess, p, credential))
    ensures var s := Run(clock, es).value; var s' := Apply(s, Add(sess, p, credential));
      && (sess !in s'.sessions <==> |Live(s.added, s.sessions, s.dropped, p)| == MAX_SESSIONS)
      && (sess in s'.sessions ==>
            && Live(s'.added, s'.sessions, s'.dropped, p) == Live(s.added, s.sessions, s.dropped, p) + [sess]
            && CallerOf(s'.registry, credential, clock) == Some(p))
      && (sess !in s'.sessions ==> s' == s)
  {
    var e := Add(sess, p, credential);
    SlotsAreExact(clock, es, p);
    RunSnoc(clock, es, e);
    SlotsAreExact(clock, es + [e], p);
  }

  lemma RunSnoc(clock: Time, es: seq<Event>, e: Event)
    requires Run(clock, es).Some? && Enabled(Run(clock, es).value, e)
    ensures Run(clock, es + [e]) == Some(Apply(Run(clock, es).value, e))
  {
    assert (es + [e])[..|es + [e]| - 1] == es;
  }

  /**
   And a session that is ended gives its slot back: until it has, one ender is on its way with its next
   step to take.
   */
  lemma EndedGoesOn(clock: Time, es: seq<Event>, sess: Sess)
    requires Run(clock, es).Some?
    requires var s := Run(clock, es).value; sess in s.sessions && s.sessions[sess].ended && sess !in s.dropped
    ensures var s := Run(clock, es).value;
      exists t :: t in s.enders && s.enders[t].sess == sess && (Enabled(s, Close(t)) || Enabled(s, Drop(t)))
  {
    RunKeepsInv(clock, es);
    var s := Run(clock, es).value;
    var t := s.claimer[sess];
    assert t in s.enders && s.enders[t].sess == sess;
  }

  /** However many end a session, its channel is closed once at most and its slot given back once at most. */
  lemma EndedOnce(clock: Time, es: seq<Event>, sess: Sess)
    requires Run(clock, es).Some?
    ensures var s := Run(clock, es).value;
      && Count(s.drops, sess) <= 1 && Count(s.closes, sess) <= 1
      && (Count(s.drops, sess) == 1 ==> Count(s.closes, sess) == 1)
      && (sess in s.dropped <==> Count(s.drops, sess) == 1)
  {
    RunKeepsInv(clock, es);
  }

  /**
   A credential names its Process from the moment its session has a slot to the end of its grace, and
   nothing before or after, for a caller that does not ask in a past the registry has left.
   */
  lemma CredentialNamesItsProcess(clock: Time, es: seq<Event>, credential: Credential, now: Time)
    requires Run(clock, es).Some? && now >= Run(clock, es).value.clock
    ensures var s := Run(clock, es).value;
      CallerOf(s.registry, credential, now) ==
        if credential !in s.owner then None
        else
          var sess := s.owner[credential];
          if sess !in s.sessions || (sess in s.dropped && now > s.dropped[sess]) then None
          else Some(s.sessions[sess].process)
  {
    RunKeepsInv(clock, es);
    var s := Run(clock, es).value;
    if credential in s.owner {
      var sess := s.owner[credential];
      assert s.sessions[sess].credential == credential;
    }
  }

  /** A run without its expiries. */
  function Unexpired(es: seq<Event>): seq<Event> {
    if es == [] then []
    else Unexpired(es[..|es| - 1]) + if es[|es| - 1].Expire? then [] else [es[|es| - 1]]
  }

  /** Two states that differ in nothing but what was forgotten. */
  ghost predicate SameButForgotten(s: State, u: State) {
    && s.registry.byProcess == u.registry.byProcess && s.sessions == u.sessions && s.enders == u.enders
    && s.claimer == u.claimer && s.added == u.added && s.owner == u.owner && s.dropped == u.dropped
    && s.drops == u.drops && s.closes == u.closes && s.clock >= u.clock
  }

  lemma DropsAlike(s: State, u: State, t: Thread)
    requires SameButForgotten(s, u) && Enabled(s, Drop(t))
    ensures Enabled(u, Drop(t)) && SameButForgotten(Apply(s, Drop(t)), Apply(u, Drop(t)))
  {
  }

  lemma StepsAlike(s: State, u: State, e: Event)
    requires SameButForgotten(s, u) && Enabled(s, e) && !e.Expire?
    ensures Enabled(u, e) && SameButForgotten(Apply(s, e), Apply(u, e))
  {
    match e
    case Add(sess, process, credential) =>
    case End(t, sess, until) =>
    case Close(t) =>
    case Drop(t) => DropsAlike(s, u, t);
  }

  lemma {:induction false} ExpiriesMoveNothingElse(clock: Time, es: seq<Event>)
    requires Run(clock, es).Some?
    ensures Run(clock, Unexpired(es)).Some? && SameButForgotten(Run(clock, es).value, Run(clock, Unexpired(es)).value)
  {
    if es != [] {
      var init, e := es[..|es| - 1], es[|es| - 1];
      ExpiriesMoveNothingElse(clock, init);
      if e.Expire? {
        assert Unexpired(es) == Unexpired(init);
      } else {
        assert Unexpired(es)[..|Unexpired(es)| - 1] == Unexpired(init);
        StepsAlike(Run(clock, init).value, Run(clock, Unexpired(init)).value, e);
      }
    }
  }

  /** A registry that never forgot a credential would answer every question the same. */
  lemma ExpireChangesNoAnswer(clock: Time, es: seq<Event>, credential: Credential, now: Time)
    requires Run(clock, es).Some? && now >= Run(clock, es).value.clock
    ensures Run(clock, Unexpired(es)).Some?
    ensures CallerOf(Run(clock, es).value.registry, credential, now)
      == CallerOf(Run(clock, Unexpired(es)).value.registry, credential, now)
  {
    ExpiriesMoveNothingElse(clock, es);
    CredentialNamesItsProcess(clock, es, credential, now);
    CredentialNamesItsProcess(clock, Unexpired(es), credential, now);
  }
}
