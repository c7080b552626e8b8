/**
 A tick of a scheduled Process against the calls that unregister it: both read and write the
 same row, in several steps, under the lock of ActionLocks. Registering again, and the deletes
 of a member's removal and of a restore, take no lock and may fall between any two steps.
 */
module TickRace {
  import opened Collections
  import L = ActionLocks

  type Id = L.Id
  type Thread = L.Thread

  /** The hash of a token, numbered in the order it was minted. Zero is the empty column. */
  type Hash = nat

  /** What a goroutine does next. The hash is the one its run was given, zero for none. */
  datatype Stage =
    | Asking
    | Reading
    | Found
    | Minted(h: Hash)
    | Finishing(h: Hash)
    | Released(h: Hash)
    | Waiting(h: Hash)
    | Ended(h: Hash, revoked: bool)

  datatype Job = Tick(id: Id, stage: Stage) | Delete(id: Id, stage: Stage)

  /**
   rows maps a registered id to its token hash. The rest only records: the last hash minted for an id,
   for whom each was, the run it was given to, and those a run that ended took back.
   */
  datatype State = State(
    lock: L.State, jobs: map<Thread, Job>, rows: map<Id, Hash>, minted: Hash,
    latest: map<Id, Hash>, mintedFor: map<Hash, Id>, givenTo: map<Hash, Thread>, revoked: set<Hash>)

  datatype Event =
    | BeginTick(t: Thread, id: Id)
    | BeginDelete(t: Thread, id: Id)
    | Lock(t: Thread)
    | Read(t: Thread, ok: bool)
    | GiveUp(t: Thread)
    | Write(t: Thread, ok: bool)
    | StartContainer(t: Thread)
    | DeleteRow(t: Thread, ok: bool)
    | Unlock(t: Thread)
    | Leave(t: Thread)
    | Revoke(t: Thread, ok: bool)
    | Register(id: Id)
    | DropRow(id: Id)

  const START := State(L.START, map[], map[], 1, map[], map[], map[], {})

  predicate IsTickAt(s: State, t: Thread, stage: Stage) {
    t in s.jobs && s.jobs[t].Tick? && s.jobs[t].stage == stage
  }

  predicate Enabled(s: State, e: Event) {
    match e
    case BeginTick(t, id) => t !in s.jobs && L.Enabled(s.lock, L.Enter(t, id))
    case BeginDelete(t, id) => t !in s.jobs && L.Enabled(s.lock, L.Enter(t, id))
    case Lock(t) => t in s.jobs && s.jobs[t].stage.Asking? && L.Enabled(s.lock, L.Acquire(t))
    case Read(t, _) => IsTickAt(s, t, Reading)
    case GiveUp(t) => t in s.jobs && s.jobs[t].Tick? && (s.jobs[t].stage.Found? || s.jobs[t].stage.Minted?)
    case Write(t, _) => IsTickAt(s, t, Found)
    case StartContainer(t) => t in s.jobs && s.jobs[t].Tick? && s.jobs[t].stage.Minted?
    case DeleteRow(t, _) => t in s.jobs && s.jobs[t].Delete? && s.jobs[t].stage.Reading?
    case Unlock(t) => t in s.jobs && s.jobs[t].stage.Finishing? && L.Enabled(s.lock, L.Unlock(t))
    case Leave(t) => t in s.jobs && s.jobs[t].stage.Released? && L.Enabled(s.lock, L.Leave(t))
    case Revoke(t, _) => t in s.jobs && s.jobs[t].stage.Waiting?
    case Register(_) => true
    case DropRow(_) => true
  }

  function To(s: State, t: Thread, stage: Stage): State
    requires t in s.jobs
  {
    s.(jobs := s.jobs[t := s.jobs[t].(stage := stage)])
  }

  /** A fresh hash written into the row of id. */
  function Mint(s: State, id: Id): State {
    s.(rows := s.rows[id := s.minted], minted := s.minted + 1,
       latest := s.latest[id := s.minted], mintedFor := s.mintedFor[s.minted := id])
  }

  /** The update that writes a run's hash touches a row that is there and makes none. */
  function UpdateRun(s: State, t: Thread): State
    requires t in s.jobs
  {
    var id := s.jobs[t].id;
    if id in s.rows then To(Mint(s, id).(givenTo := s.givenTo[s.minted := t]), t, Minted(s.minted))
    else To(s, t, Finishing(0))
  }

  /** The revocation names the hash, and empties the column only where it is still that one. */
  function Revoked(rows: map<Id, Hash>, id: Id, h: Hash): map<Id, Hash> {
    if id in rows && rows[id] == h then rows[id := 0] else rows
  }

  function Apply(s: State, e: Event): State
    requires Enabled(s, e)
  {
    match e
    case BeginTick(t, id) =>
      s.(lock := L.Apply(s.lock, L.Enter(t, id)), jobs := s.jobs[t := Tick(id, Asking)])
    case BeginDelete(t, id) =>
      s.(lock := L.Apply(s.lock, L.Enter(t, id)), jobs := s.jobs[t := Delete(id, Asking)])
    case Lock(t) => To(s, t, Reading).(lock := L.Apply(s.lock, L.Acquire(t)))
    case Read(t, ok) => To(s, t, if ok && s.jobs[t].id in s.rows then Found else Finishing(0))
    case GiveUp(t) => To(s, t, Finishing(0))
    case Write(t, ok) => if ok then UpdateRun(s, t) else To(s, t, Finishing(0))
    case StartContainer(t) => To(s, t, Finishing(s.jobs[t].stage.h))
    case DeleteRow(t, ok) => To(s, t, Finishing(0)).(rows := if ok then s.rows - {s.jobs[t].id} else s.rows)
    case Unlock(t) => To(s, t, Released(s.jobs[t].stage.h)).(lock := L.Apply(s.lock, L.Unlock(t)))
    case Leave(t) =>
      var h := s.jobs[t].stage.h;
      To(s, t, if h == 0 then Ended(0, false) else Waiting(h)).(lock := L.Apply(s.lock, L.Leave(t)))
    // A revocation that fails is logged, and the run is over all the same.
    case Revoke(t, ok) =>
      var job := s.jobs[t];
      var over := To(s, t, Ended(job.stage.h, ok));
      if !ok then over
      else over.(rows := Revoked(s.rows, job.id, job.stage.h), revoked := s.revoked + {job.stage.h})
    case Register(id) => Mint(s, id)
    case DropRow(id) => s.(rows := s.rows - {id})
  }

  function Run(es: seq<Event>): Option<State> {
    if es == [] then Some(START)
    else
      match Run(es[..|es| - 1])
      case None => None
      case Some(s) => if Enabled(s, es[|es| - 1]) then Some(Apply(s, es[|es| - 1])) else None
  }

  lemma RunSnoc(es: seq<Event>, e: Event, s: State)
    requires Run(es) == Some(s) && Enabled(s, e)
    ensures Run(es + [e]) == Some(Apply(s, e))
  {
    assert (es + [e])[..|es + [e]| - 1] == es;
  }

  /** A goroutine's stage says where it stands in the lock. */
  ghost predicate Placed(s: State, t: Thread)
    requires t in s.jobs
  {
    var id := s.jobs[t].id;
    match s.jobs[t].stage
    case Asking => t in s.lock.threads && s.lock.threads[t].Queued? && s.lock.threads[t].id == id
    case Reading | Found | Minted(_) | Finishing(_) =>
      t in s.lock.threads && s.lock.threads[t].Inside? && s.lock.threads[t].id == id
    case Released(_) => t in s.lock.threads && s.lock.threads[t].Leaving? && s.lock.threads[t].id == id
    case Waiting(_) | Ended(_, _) => t !in s.lock.threads
  }

  ghost predicate LockInv(s: State) {
    && L.Inv(s.lock)
    && (forall t <- s.jobs :: Placed(s, t))
    && (forall t <- s.lock.threads :: t in s.jobs)
  }

  function HashOf(stage: Stage): Hash {
    match stage
    case Minted(h) => h
    case Finishing(h) => h
    case Released(h) => h
    case Waiting(h) => h
    case Ended(h, _) => h
    case _ => 0
  }

  /** A row holds the last hash minted for it, unless that was revoked. */
  ghost predicate RowsHold(s: State) {
    forall id <- s.rows ::
      && id in s.latest && s.latest[id] in s.mintedFor && s.mintedFor[s.latest[id]] == id
      && s.rows[id] == if s.latest[id] in s.revoked then 0 else s.latest[id]
  }

  /** A run has a hash that was minted for its id and given to it, and to it alone. */
  ghost predicate GivenOnce(s: State) {
    forall t <- s.jobs ::
      var h := HashOf(s.jobs[t].stage);
      && (h != 0 ==> h in s.mintedFor && s.mintedFor[h] == s.jobs[t].id && h in s.givenTo && s.givenTo[h] == t)
      && (s.jobs[t].stage.Waiting? ==> h != 0)
  }

  /** Only the run a hash was given to takes it back, as it ends. */
  ghost predicate RevokedAtTheEnd(s: State) {
    && (forall h <- s.revoked :: h in s.givenTo && s.givenTo[h] in s.jobs
         && s.jobs[s.givenTo[h]].stage == Ended(h, true))
    && (forall t <- s.jobs :: s.jobs[t].stage.Ended? && s.jobs[t].stage.revoked ==> s.jobs[t].stage.h in s.revoked)
  }

  ghost predicate HashInv(s: State) {
    && s.minted > 0
    && (forall h <- s.mintedFor :: 0 < h < s.minted)
    && (forall h <- s.givenTo :: 0 < h < s.minted && s.givenTo[h] in s.jobs)
    && RowsHold(s) && GivenOnce(s) && RevokedAtTheEnd(s)
  }

  predicate OnLock(e: Event) {
    e.BeginTick? || e.BeginDelete? || e.Lock? || e.Unlock? || e.Leave?
  }

  predicate Critical(stage: Stage) {
    stage.Reading? || stage.Found? || stage.Minted? || stage.Finishing?
  }

  lemma LockStepKeepsLockInv(s: State, e: Event)
    requires LockInv(s) && Enabled(s, e) && OnLock(e)
    ensures LockInv(Apply(s, e))
  {
    var s' := Apply(s, e);
    match e {
      case BeginTick(t, id) => L.StepKeepsInv(s.lock, L.Enter(t, id));
      case BeginDelete(t, id) => L.StepKeepsInv(s.lock, L.Enter(t, id));
      case Lock(t) => L.StepKeepsInv(s.lock, L.Acquire(t));
      case Unlock(t) => L.StepKeepsInv(s.lock, L.Unlock(t));
      case Leave(t) => L.StepKeepsInv(s.lock, L.Leave(t));
    }
    forall u <- s'.jobs
      ensures Placed(s', u)
    {
      assert u != e.t ==> Placed(s, u);
    }
  }

  /** Any other step of a goroutine leaves the lock alone and keeps it inside, or outside. */
  lemma OtherStepsStayPut(s: State, e: Event)
    requires Enabled(s, e) && !OnLock(e) && !e.Register? && !e.DropRow?
    ensures Apply(s, e).lock == s.lock && e.t in s.jobs
    ensures exists stage ::
      Apply(s, e).jobs == s.jobs[e.t := s.jobs[e.t].(stage := stage)] && SameSide(s.jobs[e.t].stage, stage)
  {
    hide L.Apply, L.Enabled;
    var job := Apply(s, e).jobs[e.t];
    assert SameSide(s.jobs[e.t].stage, job.stage);
    assert Apply(s, e).jobs == s.jobs[e.t := s.jobs[e.t].(stage := job.stage)];
  }

  predicate SameSide(a: Stage, b: Stage) {
    (Critical(a) && Critical(b)) || (a.Waiting? && b.Ended?)
  }

  lemma SameSideStaysPlaced(s: State, s': State, t: Thread, stage: Stage)
    requires LockInv(s) && t in s.jobs && SameSide(s.jobs[t].stage, stage)
    requires s'.lock == s.lock && s'.jobs == s.jobs[t := s.jobs[t].(stage := stage)]
    ensures LockInv(s')
  {
    assert Placed(s, t);
    forall u <- s'.jobs ensures Placed(s', u) {
      assert Placed(s, u);
    }
  }

  lemma StepKeepsLockInv(s: State, e: Event)
    requires LockInv(s) && Enabled(s, e)
    ensures LockInv(Apply(s, e))
  {
    if OnLock(e) {
      LockStepKeepsLockInv(s, e);
    } else if e.Register? || e.DropRow? {
      RowStepKeepsLockInv(s, e);
    } else {
      OtherStepsStayPut(s, e);
      var stage :| Apply(s, e).jobs == s.jobs[e.t := s.jobs[e.t].(stage := stage)]
        && SameSide(s.jobs[e.t].stage, stage);
      SameSideStaysPlaced(s, Apply(s, e), e.t, stage);
    }
  }

  lemma RowStepKeepsLockInv(s: State, e: Event)
    requires LockInv(s) && (e.Register? || e.DropRow?)
    ensures LockInv(Apply(s, e))
  {
    forall u <- s.jobs ensures Placed(Apply(s, e), u) {
      assert Placed(s, u);
    }
  }

  /** What the lock gives the ticks and deletes of one id. */
  lemma OneInside(s: State, t: Thread, u: Thread)
    requires LockInv(s) && t in s.jobs && u in s.jobs && s.jobs[t].id == s.jobs[u].id
    requires Critical(s.jobs[t].stage) && Critical(s.jobs[u].stage)
    ensures t == u
  {
    assert Placed(s, t) && Placed(s, u);
    assert s.lock.threads[t].lock == s.lock.threads[u].lock;
  }

  /** A mint is a hash that nobody was given and that was never revoked. */
  lemma MintKeepsRows(s: State, id: Id)
    requires HashInv(s)
    ensures RowsHold(Mint(s, id))
  {
  }

  lemma MintKeepsGiven(s: State, t: Thread)
    requires HashInv(s) && IsTickAt(s, t, Found) && s.jobs[t].id in s.rows
    ensures HashInv(UpdateRun(s, t))
  {
    var s' := UpdateRun(s, t);
    MintKeepsRows(s, s.jobs[t].id);
    forall u <- s'.jobs | u != t
      ensures u in s.jobs && s'.jobs[u] == s.jobs[u] && HashOf(s.jobs[u].stage) != s.minted
    {
    }
  }

  lemma WriteKeepsHashInv(s: State, t: Thread, ok: bool)
    requires HashInv(s) && Enabled(s, Write(t, ok))
    ensures HashInv(Apply(s, Write(t, ok)))
  {
    if ok && s.jobs[t].id in s.rows {
      MintKeepsGiven(s, t);
    } else {
      OneJobKeepsHashes(s, Apply(s, Write(t, ok)), t, s.jobs[t].(stage := Finishing(0)));
    }
  }

  lemma RegisterKeepsHashInv(s: State, id: Id)
    requires HashInv(s)
    ensures HashInv(Apply(s, Register(id)))
  {
    MintKeepsRows(s, id);
  }

  /** Taking a hash back empties the row it is in, which is the one whose last it is. */
  lemma RevokeKeepsRows(s: State, t: Thread, ok: bool)
    requires HashInv(s) && Enabled(s, Revoke(t, ok))
    ensures RowsHold(Apply(s, Revoke(t, ok)))
  {
    var h, id := s.jobs[t].stage.h, s.jobs[t].id;
    assert HashOf(s.jobs[t].stage) == h;
    assert h != 0 && h in s.mintedFor && s.mintedFor[h] == id;
  }

  lemma RevokeKeepsGiven(s: State, t: Thread, ok: bool)
    requires HashInv(s) && Enabled(s, Revoke(t, ok))
    ensures var s' := Apply(s, Revoke(t, ok)); GivenOnce(s') && RevokedAtTheEnd(s')
  {
    var s' := Apply(s, Revoke(t, ok));
    var h := s.jobs[t].stage.h;
    assert HashOf(s.jobs[t].stage) == h == HashOf(s'.jobs[t].stage);
    assert h in s.givenTo && s.givenTo[h] == t;
    forall u <- s'.jobs | u != t
      ensures u in s.jobs && s'.jobs[u] == s.jobs[u]
    {
    }
  }

  /** Any other step mints nothing and takes nothing back, and its goroutine keeps the hash it has or drops it. */
  lemma OtherStepsKeepHashes(s: State, e: Event)
    requires Enabled(s, e) && !e.Write? && !e.Register? && !e.Revoke? && !e.DropRow?
    ensures var s' := Apply(s, e);
      && s'.minted == s.minted && s'.latest == s.latest && s'.mintedFor == s.mintedFor
      && s'.givenTo == s.givenTo && s'.revoked == s.revoked
      && (s'.rows == s.rows || exists id :: s'.rows == s.rows - {id})
      && exists job: Job ::
           && s'.jobs == s.jobs[e.t := job]
           && HashOf(job.stage) in {0, if e.t in s.jobs then HashOf(s.jobs[e.t].stage) else 0}
           && (e.t in s.jobs ==> job.id == s.jobs[e.t].id && !s.jobs[e.t].stage.Ended?)
           && (job.stage.Waiting? ==> job.stage.h != 0) && (job.stage.Ended? ==> !job.stage.revoked)
  {
    var job := Apply(s, e).jobs[e.t];
    assert Apply(s, e).jobs == s.jobs[e.t := job];
  }

  lemma OneJobKeepsHashes(s: State, s': State, t: Thread, job: Job)
    requires HashInv(s) && s' == s.(jobs := s.jobs[t := job], lock := s'.lock, rows := s'.rows)
    requires s'.rows.Keys <= s.rows.Keys && forall id <- s'.rows :: s'.rows[id] == s.rows[id]
    requires HashOf(job.stage) in {0, if t in s.jobs then HashOf(s.jobs[t].stage) else 0}
    requires t in s.jobs ==> job.id == s.jobs[t].id && !s.jobs[t].stage.Ended?
    requires (job.stage.Waiting? ==> job.stage.h != 0) && (job.stage.Ended? ==> !job.stage.revoked)
    ensures HashInv(s')
  {
  }

  lemma StepKeepsHashInv(s: State, e: Event)
    requires HashInv(s) && Enabled(s, e)
    ensures HashInv(Apply(s, e))
  {
    match e
    case Write(t, ok) => WriteKeepsHashInv(s, t, ok);
    case Register(id) => RegisterKeepsHashInv(s, id);
    case Revoke(t, ok) =>
      RevokeKeepsRows(s, t, ok);
      RevokeKeepsGiven(s, t, ok);
    case DropRow(id) =>
    case _ => OtherStepKeepsHashInv(s, e);
  }

  lemma OtherStepKeepsHashInv(s: State, e: Event)
    requires HashInv(s) && Enabled(s, e) && !e.Write? && !e.Register? && !e.Revoke? && !e.DropRow?
    ensures HashInv(Apply(s, e))
  {
    var s' := Apply(s, e);
    OtherStepsKeepHashes(s, e);
    OneJobKeepsHashes(s, s', e.t, s'.jobs[e.t]);
  }

  lemma {:induction false} RunKeepsInv(es: seq<Event>)
    requires Run(es).Some?
    ensures LockInv(Run(es).value) && HashInv(Run(es).value)
  {
    if es != [] {
      RunKeepsInv(es[..|es| - 1]);
      StepKeepsLockInv(Run(es[..|es| - 1]).value, es[|es| - 1]);
      StepKeepsHashInv(Run(es[..|es| - 1]).value, es[|es| - 1]);
    }
  }

  /** Nothing is left that could start a container of id: no row, and no tick past its write. */
  ghost predicate Over(s: State, id: Id) {
    id !in s.rows && forall t <- s.jobs :: s.jobs[t].id == id ==> !s.jobs[t].stage.Minted?
  }

  predicate Starts(s: State, e: Event, id: Id) {
    e.StartContainer? && e.t in s.jobs && s.jobs[e.t].id == id
  }

  lemma OverLasts(s: State, e: Event, id: Id)
    requires Over(s, id) && Enabled(s, e) && e != Register(id)
    ensures Over(Apply(s, e), id) && !Starts(s, e, id)
  {
  }

  /** Mutual exclusion is what makes a delete final: whoever could have started is outside. */
  lemma DeleteIsOver(s: State, t: Thread)
    requires LockInv(s) && Enabled(s, DeleteRow(t, true))
    ensures Over(Apply(s, DeleteRow(t, true)), s.jobs[t].id)
  {
    forall u <- s.jobs | s.jobs[u].id == s.jobs[t].id && s.jobs[u].stage.Minted?
      ensures u == t
    {
      OneInside(s, u, t);
    }
  }

  /** No event of more starts a container of id, from wherever es leads. */
  ghost predicate NoStart(es: seq<Event>, more: seq<Event>, id: Id) {
    forall k :: 0 <= k < |more| && Run(es + more[..k]).Some? ==> !Starts(Run(es + more[..k]).value, more[k], id)
  }

  lemma {:induction false} OverLastsOn(es: seq<Event>, more: seq<Event>, id: Id)
    requires Run(es).Some? && Over(Run(es).value, id)
    requires Run(es + more).Some? && Register(id) !in more
    ensures Over(Run(es + more).value, id)
    decreases |more|
  {
    if more == [] {
      assert es + more == es;
    } else {
      var init, last := more[..|more| - 1], more[|more| - 1];
      ConcatDropLast(es, more);
      OverLastsOn(es, init, id);
      OverLasts(Run(es + init).value, last, id);
    }
  }

  lemma {:induction false} RunPrefix(es: seq<Event>, k: nat)
    requires Run(es).Some? && k < |es|
    ensures Run(es[..k]).Some? && Enabled(Run(es[..k]).value, es[k])
  {
    if k < |es| - 1 {
      RunPrefix(es[..|es| - 1], k);
      assert es[..|es| - 1][..k] == es[..k];
    }
  }

  lemma NoStartAt(es: seq<Event>, more: seq<Event>, id: Id, k: nat)
    requires Run(es).Some? && Over(Run(es).value, id)
    requires Run(es + more).Some? && Register(id) !in more && k < |more|
    ensures Run(es + more[..k]).Some? && !Starts(Run(es + more[..k]).value, more[k], id)
  {
    RunPrefix(es + more, |es| + k);
    ConcatTake(es, more, k);
    OverLastsOn(es, more[..k], id);
    assert more[k] in more;
    OverLasts(Run(es + more[..k]).value, more[k], id);
  }

  lemma OverForever(es: seq<Event>, more: seq<Event>, id: Id)
    requires Run(es).Some? && Over(Run(es).value, id)
    requires Run(es + more).Some? && Register(id) !in more
    ensures Over(Run(es + more).value, id) && NoStart(es, more, id)
  {
    OverLastsOn(es, more, id);
    forall k | 0 <= k < |more| && Run(es + more[..k]).Some?
      ensures !Starts(Run(es + more[..k]).value, more[k], id)
    {
      NoStartAt(es, more, id, k);
    }
  }

  /**
   Once an unregister has deleted the row, no tick of that id starts a container or writes the row
   back, at any later point of any run, until the id is registered again.
   */
  lemma DeleteIsFinal(es: seq<Event>, t: Thread, id: Id, more: seq<Event>)
    requires Run(es).Some? && Enabled(Run(es).value, DeleteRow(t, true)) && Run(es).value.jobs[t].id == id
    requires Run(es + [DeleteRow(t, true)] + more).Some? && Register(id) !in more
    ensures id !in Run(es + [DeleteRow(t, true)] + more).value.rows
    ensures NoStart(es + [DeleteRow(t, true)], more, id)
  {
    RunKeepsInv(es);
    DeleteIsOver(Run(es).value, t);
    RunSnoc(es, DeleteRow(t, true), Run(es).value);
    OverForever(es + [DeleteRow(t, true)], more, id);
  }

  lemma OnlyRegisteringInserts(s: State, e: Event, id: Id)
    requires id !in s.rows && Enabled(s, e) && e != Register(id)
    ensures id !in Apply(s, e).rows
  {
  }

  /** However the row went, only a registration brings it back: no tick ever does. */
  lemma {:induction false} TicksResurrectNothing(es: seq<Event>, more: seq<Event>, id: Id)
    requires Run(es).Some? && id !in Run(es).value.rows
    requires Run(es + more).Some? && Register(id) !in more
    ensures id !in Run(es + more).value.rows
    decreases |more|
  {
    if more == [] {
      assert es + more == es;
    } else {
      ConcatDropLast(es, more);
      TicksResurrectNothing(es, more[..|more| - 1], id);
      OnlyRegisteringInserts(Run(es + more[..|more| - 1]).value, more[|more| - 1], id);
    }
  }

  /** A tick that was handed a hash still has its row, as long as every delete takes the lock. */
  ghost predicate RowsUnderTicks(s: State) {
    forall t <- s.jobs :: s.jobs[t].Tick? && (s.jobs[t].stage.Found? || s.jobs[t].stage.Minted?)
      ==> s.jobs[t].id in s.rows
  }

  lemma LockedDeleteKeepsRows(s: State, e: Event)
    requires LockInv(s) && RowsUnderTicks(s) && Enabled(s, e) && e.DeleteRow?
    ensures RowsUnderTicks(Apply(s, e))
  {
    forall u <- s.jobs | s.jobs[u].id == s.jobs[e.t].id && Critical(s.jobs[u].stage)
      ensures u == e.t
    {
      OneInside(s, u, e.t);
    }
  }

  lemma LockedStepKeepsRows(s: State, e: Event)
    requires LockInv(s) && RowsUnderTicks(s) && Enabled(s, e) && !e.DropRow?
    ensures RowsUnderTicks(Apply(s, e))
  {
    hide LockInv;
    if e.DeleteRow? {
      LockedDeleteKeepsRows(s, e);
    }
  }

  /** Where every delete takes the lock, each container is started for a Process registered at that moment. */
  lemma {:induction false} StartsOnlyRegistered(es: seq<Event>)
    requires Run(es).Some? && forall e <- es :: !e.DropRow?
    ensures RowsUnderTicks(Run(es).value)
    ensures forall t :: Enabled(Run(es).value, StartContainer(t)) ==> Run(es).value.jobs[t].id in Run(es).value.rows
  {
    if es != [] {
      var init, last := es[..|es| - 1], es[|es| - 1];
      assert last in es;
      StartsOnlyRegistered(init);
      RunKeepsInv(init);
      LockedStepKeepsRows(Run(init).value, last);
    }
  }

  /** No tick of the id stands between the write of its hash and the start. */
  ghost predicate NoneMinted(s: State, id: Id) {
    forall t <- s.jobs :: s.jobs[t].id == id ==> !s.jobs[t].stage.Minted?
  }

  /** Only a tick is ever past a write. */
  ghost predicate MintedAreTicks(s: State) {
    forall t <- s.jobs :: s.jobs[t].stage.Minted? || s.jobs[t].stage.Found? ==> s.jobs[t].Tick?
  }

  lemma StepMintsForTicks(s: State, e: Event)
    requires MintedAreTicks(s) && Enabled(s, e)
    ensures MintedAreTicks(Apply(s, e))
  {
    hide L.Apply, L.Enabled;
  }

  lemma {:induction false} RunMintsForTicks(es: seq<Event>)
    requires Run(es).Some?
    ensures MintedAreTicks(Run(es).value)
  {
    if es != [] {
      RunMintsForTicks(es[..|es| - 1]);
      StepMintsForTicks(Run(es[..|es| - 1]).value, es[|es| - 1]);
    }
  }

  /**
   The lock is what that rests on: a delete without it is final, in every continuation without a new
   registration, exactly where no tick of the id stands between its write and its start.
   */
  lemma UnlockedDeleteIsFinal(es: seq<Event>, id: Id)
    requires Run(es).Some?
    ensures NoneMinted(Run(es).value, id) <==>
      forall more | Run(es + [DropRow(id)] + more).Some? && Register(id) !in more ::
        NoStart(es + [DropRow(id)], more, id)
  {
    var s := Run(es).value;
    var dropped := es + [DropRow(id)];
    RunSnoc(es, DropRow(id), s);
    RunMintsForTicks(es);
    if NoneMinted(s, id) {
      forall more | Run(dropped + more).Some? && Register(id) !in more
        ensures NoStart(dropped, more, id)
      {
        OverForever(dropped, more, id);
      }
    } else {
      var t :| t in s.jobs && s.jobs[t].id == id && s.jobs[t].stage.Minted?;
      StartsAllTheSame(dropped, t, id);
    }
  }

  lemma StartsAllTheSame(es: seq<Event>, t: Thread, id: Id)
    requires Run(es).Some? && Enabled(Run(es).value, StartContainer(t)) && Run(es).value.jobs[t].id == id
    ensures Run(es + [StartContainer(t)]).Some? && !NoStart(es, [StartContainer(t)], id)
    ensures Register(id) !in [StartContainer(t)]
  {
    var more := [StartContainer(t)];
    RunSnoc(es, more[0], Run(es).value);
    assert es + more[..0] == es;
    assert Starts(Run(es + more[..0]).value, more[0], id);
  }

  /** And such a tick there can be. */
  lemma UnlockedDeleteCanBeOutrun()
    ensures exists es, t :: Run(es).Some? && Enabled(Run(es).value, StartContainer(t)) && Run(es).value.rows == map[]
  {
    var up := RunToFound();
    var s := Run(up).value;
    RunSnoc(up, Write(0, true), s);
    var written := Apply(s, Write(0, true));
    RunSnoc(up + [Write(0, true)], DropRow("job"), written);
    var es := up + [Write(0, true)] + [DropRow("job")];
    assert Run(es) == Some(Apply(written, DropRow("job")));
    assert Enabled(Run(es).value, StartContainer(0));
  }

  /** A run that leaves one tick with its registration read and the lock held. */
  lemma RunToFound() returns (es: seq<Event>)
    ensures Run(es).Some? && Run(es).value.rows.Keys == {"job"}
    ensures Run(es).value.jobs == map[0 := Tick("job", Found)]
  {
    var s0, s1 := START, Apply(START, Register("job"));
    RunSnoc([], Register("job"), s0);
    RunSnoc([Register("job")], BeginTick(0, "job"), s1);
    var e2 := [Register("job")] + [BeginTick(0, "job")];
    var s2 := Apply(s1, BeginTick(0, "job"));
    RunSnoc(e2, Lock(0), s2);
    var s3 := Apply(s2, Lock(0));
    RunSnoc(e2 + [Lock(0)], Read(0, true), s3);
    es := e2 + [Lock(0)] + [Read(0, true)];
    assert Run(es) == Some(Apply(s3, Read(0, true)));
  }

  /**
   Ending a run changes its own row and only where the hash in it is the one this run was given.
   A hash minted for that id since, by a registration or by another run, is left as it is.
   */
  lemma RevokeLeavesLaterHashes(es: seq<Event>, t: Thread, ok: bool)
    requires Run(es).Some? && Enabled(Run(es).value, Revoke(t, ok))
    ensures var s := Run(es).value; var s' := Apply(s, Revoke(t, ok));
      && s'.rows.Keys == s.rows.Keys
      && (forall id <- s.rows :: s'.rows[id] != s.rows[id] ==>
            && ok && id == s.jobs[t].id
            && id in s.latest && s.rows[id] == s.latest[id] == s.jobs[t].stage.h && s'.rows[id] == 0)
  {
    RunKeepsInv(es);
  }

  /** No other hash was minted for the id since. */
  predicate Newest(s: State, id: Id, h: Hash) {
    id in s.latest && s.latest[id] == h
  }

  /** A hash answers for a Process. */
  ghost predicate Answers(s: State, h: Hash) {
    exists id :: id in s.rows && s.rows[id] == h
  }

  /**
   A hash answers exactly as long as its row is there, no other was minted for it, and its run did not
   take it back.
   */
  lemma TokenAnswersExactly(es: seq<Event>, h: Hash)
    requires Run(es).Some? && h in Run(es).value.mintedFor
    ensures var s := Run(es).value; var id := s.mintedFor[h];
      Answers(s, h) <==> id in s.rows && Newest(s, id, h) && h !in s.revoked
  {
    RunKeepsInv(es);
  }

  /** The token of a run that has ended is dead, unless taking it back failed and its row has seen nothing since. */
  lemma EndedTokenIsDead(es: seq<Event>, t: Thread)
    requires Run(es).Some?
    requires var s := Run(es).value; t in s.jobs && s.jobs[t].stage.Ended? && s.jobs[t].stage.h != 0
    ensures var s := Run(es).value; var id, stage := s.jobs[t].id, s.jobs[t].stage;
      Answers(s, stage.h) <==> !stage.revoked && id in s.rows && Newest(s, id, stage.h)
  {
    RunKeepsInv(es);
    var s := Run(es).value;
    var h := s.jobs[t].stage.h;
    assert HashOf(s.jobs[t].stage) == h;
    TokenAnswersExactly(es, h);
  }

  /** The token of a tick that gave up once it had one is taken back by nobody: it answers until the next is minted. */
  lemma AbandonedTokenAnswers(es: seq<Event>, t: Thread, h: Hash)
    requires Run(es).Some?
    requires var s := Run(es).value; h in s.givenTo && s.givenTo[h] == t && t in s.jobs && HashOf(s.jobs[t].stage) != h
    requires h in Run(es).value.mintedFor
    ensures var s := Run(es).value; var id := s.mintedFor[h];
      Answers(s, h) <==> id in s.rows && Newest(s, id, h)
  {
    RunKeepsInv(es);
    TokenAnswersExactly(es, h);
  }

  // What a run comes to.

  /** This thread tried to revoke its token, and was so answered. */
  predicate Tried(es: seq<Event>, t: Thread, ok: bool) {
    Revoke(t, ok) in es
  }

  lemma {:induction false} EndedHasRevoked(es: seq<Event>, t: Thread)
    requires Run(es).Some?
    requires var s := Run(es).value; t in s.jobs && s.jobs[t].stage.Ended? && s.jobs[t].stage.h != 0
    ensures Tried(es, t, Run(es).value.jobs[t].stage.revoked)
  {
    var init, e := es[..|es| - 1], es[|es| - 1];
    var s := Run(init).value;
    StepEnds(s, e, t);
    assert e in es;
    if !e.Revoke? || e.t != t {
      EndedHasRevoked(init, t);
      assert Revoke(t, s.jobs[t].stage.revoked) in init;
    }
  }

  /** A goroutine comes to an end with a hash only by its revocation. */
  lemma StepEnds(s: State, e: Event, t: Thread)
    requires Enabled(s, e) && t in Apply(s, e).jobs
    requires Apply(s, e).jobs[t].stage.Ended? && Apply(s, e).jobs[t].stage.h != 0
    ensures if e.Revoke? && e.t == t then Apply(s, e).jobs[t].stage.revoked == e.ok
      else t in s.jobs && s.jobs[t].stage == Apply(s, e).jobs[t].stage
  {
    hide L.Apply, L.Enabled;
  }

  /** A container was started by this thread. */
  predicate Ran(es: seq<Event>, t: Thread) {
    StartContainer(t) in es
  }

  /** A tick that started a container has the hash it was given until it ends. */
  lemma StartedKeepsItsHash(s: State, e: Event, t: Thread)
    requires Enabled(s, e) && t in s.jobs
    requires HashOf(s.jobs[t].stage) != 0 && !s.jobs[t].stage.Minted?
    ensures t in Apply(s, e).jobs && HashOf(Apply(s, e).jobs[t].stage) == HashOf(s.jobs[t].stage)
    ensures !Apply(s, e).jobs[t].stage.Minted?
  {
    hide L.Apply, L.Enabled;
  }

  lemma {:induction false} RunHasItsHash(es: seq<Event>, t: Thread)
    requires Run(es).Some? && Ran(es, t)
    ensures var s := Run(es).value;
      t in s.jobs && HashOf(s.jobs[t].stage) != 0 && !s.jobs[t].stage.Minted?
  {
    var init, e := es[..|es| - 1], es[|es| - 1];
    RunKeepsInv(init);
    assert es == init + [e];
    if Ran(init, t) {
      RunHasItsHash(init, t);
      StartedKeepsItsHash(Run(init).value, e, t);
    } else {
      assert e == StartContainer(t);
      MintedHasAHash(init, t);
    }
  }

  lemma StepMintsAHash(s: State, e: Event, t: Thread)
    requires s.minted > 0 && Enabled(s, e) && t in Apply(s, e).jobs && Apply(s, e).jobs[t].stage.Minted?
    ensures Apply(s, e).jobs[t].stage.h != 0 || (t in s.jobs && s.jobs[t].stage == Apply(s, e).jobs[t].stage)
  {
    hide L.Apply, L.Enabled;
  }

  lemma SomethingIsMinted(es: seq<Event>)
    requires Run(es).Some?
    ensures Run(es).value.minted > 0
  {
    RunKeepsInv(es);
  }

  lemma {:induction false} MintedHasAHash(es: seq<Event>, t: Thread)
    requires Run(es).Some? && t in Run(es).value.jobs && Run(es).value.jobs[t].stage.Minted?
    ensures Run(es).value.jobs[t].stage.h != 0
  {
    hide Apply;
    var init, e := es[..|es| - 1], es[|es| - 1];
    SomethingIsMinted(init);
    StepMintsAHash(Run(init).value, e, t);
    if Run(es).value.jobs[t].stage.h == 0 {
      MintedHasAHash(init, t);
    }
  }

  /** A run that was started and is over had its token's revocation tried, and is marked by how that was answered. */
  lemma StartedRunRevokes(es: seq<Event>, t: Thread)
    requires Run(es).Some? && Ran(es, t) && t in Run(es).value.jobs && Run(es).value.jobs[t].stage.Ended?
    ensures Run(es).value.jobs[t].stage.h != 0 && Tried(es, t, Run(es).value.jobs[t].stage.revoked)
  {
    RunHasItsHash(es, t);
    EndedHasRevoked(es, t);
  }

  /** So where no revocation failed, the token of a run that is over answers for nothing. */
  lemma OverMeansDead(es: seq<Event>, t: Thread)
    requires Run(es).Some? && (forall e <- es :: e.Revoke? ==> e.ok)
    requires var s := Run(es).value; t in s.jobs && s.jobs[t].stage.Ended? && s.jobs[t].stage.h != 0
    ensures !Answers(Run(es).value, Run(es).value.jobs[t].stage.h)
  {
    EndedHasRevoked(es, t);
    EndedTokenIsDead(es, t);
  }

  /** A tick that nobody stands in the way of: from the read to the revocation, every call answered. */
  function Course(t: Thread): seq<Event> {
    [Read(t, true), Write(t, true), StartContainer(t), Unlock(t), Leave(t), Revoke(t, true)]
  }

  /**
   And a tick does run: one that has the lock, with its row there and no call failing, writes a hash of its
   own, starts its container, gives the lock back and revokes that hash.
   */
  lemma ATickRunsItsCourse(es: seq<Event>, t: Thread)
    requires Run(es).Some? && IsTickAt(Run(es).value, t, Reading) && Run(es).value.jobs[t].id in Run(es).value.rows
    ensures Run(es + Course(t)).Some?
    ensures var s, s' := Run(es).value, Run(es + Course(t)).value;
      && s'.jobs == s.jobs[t := s.jobs[t].(stage := Ended(s.minted, true))]
      && s'.rows == s.rows[s.jobs[t].id := 0] && s'.minted == s.minted + 1 && t !in s'.lock.threads
  {
    var s := Run(es).value;
    SomethingIsMinted(es);
    var e3, s3 := ThenStarts(es, s, t);
    var e6, s6 := ThenRevokes(e3, s3, t);
    SixOn(es, Read(t, true), Write(t, true), StartContainer(t), Unlock(t), Leave(t), Revoke(t, true));
    assert s6.rows == s.rows[s.jobs[t].id := 0];
  }

  lemma PlacedIn(es: seq<Event>, t: Thread)
    requires Run(es).Some? && t in Run(es).value.jobs
    ensures Placed(Run(es).value, t)
  {
    RunKeepsInv(es);
  }

  /** And from there to the end. */
  lemma ThenRevokes(es: seq<Event>, s: State, t: Thread) returns (es': seq<Event>, s': State)
    requires Run(es) == Some(s) && t in s.jobs && s.jobs[t].stage.Finishing? && s.jobs[t].stage.h != 0
    requires s.jobs[t].id in s.rows && s.rows[s.jobs[t].id] == s.jobs[t].stage.h
    ensures es' == es + [Unlock(t)] + [Leave(t)] + [Revoke(t, true)] && Run(es') == Some(s')
    ensures s'.jobs == s.jobs[t := s.jobs[t].(stage := Ended(s.jobs[t].stage.h, true))]
    ensures s'.rows == s.rows[s.jobs[t].id := 0] && s'.minted == s.minted && t !in s'.lock.threads
  {
    var e4, e5 := es + [Unlock(t)], es + [Unlock(t)] + [Leave(t)];
    PlacedIn(es, t);
    RunSnoc(es, Unlock(t), s);
    var s4 := Apply(s, Unlock(t));
    PlacedIn(e4, t);
    RunSnoc(e4, Leave(t), s4);
    var s5 := Apply(s4, Leave(t));
    RunSnoc(e5, Revoke(t, true), s5);
    es', s' := e5 + [Revoke(t, true)], Apply(s5, Revoke(t, true));
    PlacedIn(es', t);
    assert s'.jobs == s.jobs[t := s.jobs[t].(stage := Ended(s.jobs[t].stage.h, true))];
  }

  /** As far as the container: the row holds a hash that was never minted before. */
  lemma ThenStarts(es: seq<Event>, s: State, t: Thread) returns (es': seq<Event>, s': State)
    requires Run(es) == Some(s) && IsTickAt(s, t, Reading) && s.jobs[t].id in s.rows
    ensures es' == es + [Read(t, true)] + [Write(t, true)] + [StartContainer(t)] && Run(es') == Some(s')
    ensures s'.jobs == s.jobs[t := s.jobs[t].(stage := Finishing(s.minted))]
    ensures s'.rows == s.rows[s.jobs[t].id := s.minted] && s'.minted == s.minted + 1 && s'.lock == s.lock
  {
    var e1, e2 := es + [Read(t, true)], es + [Read(t, true)] + [Write(t, true)];
    RunSnoc(es, Read(t, true), s);
    var s1 := Apply(s, Read(t, true));
    RunSnoc(e1, Write(t, true), s1);
    var s2 := Apply(s1, Write(t, true));
    RunSnoc(e2, StartContainer(t), s2);
    es', s' := e2 + [StartContainer(t)], Apply(s2, StartContainer(t));
    assert s'.jobs == s.jobs[t := s.jobs[t].(stage := Finishing(s.minted))];
  }
}
