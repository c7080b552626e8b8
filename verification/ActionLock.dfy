/**
 The lock per Process id that makes and drops its own mutexes. The class is the two critical
 sections under the table's own mutex; the system interleaves them with the locking of the
 mutex they hand out, for any number of threads.
 */
module ActionLocks {
  import opened Collections

  type Id = string
  type Thread = nat

  /** A mutex is its address: minted counts the ones ever made. */
  type Mutex = nat

  datatype Table = Table(held: map<Id, Mutex>, waits: map<Id, int>, minted: nat)

  function WaitsOf(t: Table, id: Id): int {
    if id in t.waits then t.waits[id] else 0
  }

  /** Taking part in the lock of id: the mutex is found or made, and the caller is counted. */
  function Entered(t: Table, id: Id): Table {
    var t' := if id in t.held then t else t.(held := t.held[id := t.minted], minted := t.minted + 1);
    t'.(waits := t.waits[id := WaitsOf(t, id) + 1])
  }

  /** Giving it up: the last one out takes the entry with them. */
  function Left(t: Table, id: Id): Table {
    var n := WaitsOf(t, id) - 1;
    if n <= 0 then t.(held := t.held - {id}, waits := t.waits - {id})
    else t.(waits := t.waits[id := n])
  }

  class ActionLock {
    var held: map<Id, Mutex>
    var waits: map<Id, int>
    var minted: nat

    ghost function View(): Table
      reads this
    {
      Table(held, waits, minted)
    }

    constructor ()
      ensures View() == Table(map[], map[], 0)
    {
      held, waits, minted := map[], map[], 0;
    }

    method Enter(id: Id) returns (lock: Mutex)
      modifies this
      ensures View() == Entered(old(View()), id)
      ensures id in held && lock == held[id]
    {
      if id in held {
        lock := held[id];
      } else {
        lock := minted;
        minted := minted + 1;
        held := held[id := lock];
      }
      waits := waits[id := (if id in waits then waits[id] else 0) + 1];
    }

    method Leave(id: Id)
      modifies this
      ensures View() == Left(old(View()), id)
    {
      var n := (if id in waits then waits[id] else 0) - 1;
      waits := waits[id := n];
      if n <= 0 {
        waits := waits - {id};
        held := held - {id};
      }
    }
  }

  /** Where a thread stands between calling lock and the end of its release. */
  datatype Place = Queued(id: Id, lock: Mutex) | Inside(id: Id, lock: Mutex) | Leaving(id: Id)

  /** locked is who holds each mutex that is held; a thread not in threads is outside. */
  datatype State = State(table: Table, locked: map<Mutex, Thread>, threads: map<Thread, Place>)

  datatype Event = Enter(t: Thread, id: Id) | Acquire(t: Thread) | Unlock(t: Thread) | Leave(t: Thread)

  const START := State(Table(map[], map[], 0), map[], map[])

  predicate Enabled(s: State, e: Event) {
    match e
    case Enter(t, _) => t !in s.threads
    case Acquire(t) => t in s.threads && s.threads[t].Queued? && s.threads[t].lock !in s.locked
    case Unlock(t) => t in s.threads && s.threads[t].Inside?
    case Leave(t) => t in s.threads && s.threads[t].Leaving?
  }

  function Apply(s: State, e: Event): State
    requires Enabled(s, e)
  {
    match e
    case Enter(t, id) =>
      var table := Entered(s.table, id);
      s.(table := table, threads := s.threads[t := Queued(id, table.held[id])])
    case Acquire(t) =>
      var p := s.threads[t];
      s.(locked := s.locked[p.lock := t], threads := s.threads[t := Inside(p.id, p.lock)])
    case Unlock(t) =>
      var p := s.threads[t];
      s.(locked := s.locked - {p.lock}, threads := s.threads[t := Leaving(p.id)])
    case Leave(t) =>
      s.(table := Left(s.table, s.threads[t].id), threads := s.threads - {t})
  }

  function Run(es: seq<Event>): Option<State> {
    if es == [] then Some(START)
    else
      match Run(es[..|es| - 1])
      case None => None
      case Some(s) => if Enabled(s, es[|es| - 1]) then Some(Apply(s, es[|es| - 1])) else None
  }

  /** The threads between entry and exit for one id. */
  function Users(threads: map<Thread, Place>, id: Id): set<Thread> {
    set t | t in threads && threads[t].id == id
  }

  /** Everybody taking part in one id was handed the mutex the table still holds for it. */
  ghost predicate OneMutexPerId(s: State) {
    forall t <- s.threads ::
      && s.threads[t].id in s.table.held
      && (s.threads[t].Leaving? || s.threads[t].lock == s.table.held[s.threads[t].id])
  }

  ghost predicate Counted(s: State) {
    && s.table.waits.Keys == s.table.held.Keys
    && (forall id <- s.table.waits :: s.table.waits[id] > 0)
    && (forall id :: WaitsOf(s.table, id) == |Users(s.threads, id)|)
  }

  ghost predicate Distinct(s: State) {
    && (forall id <- s.table.held :: s.table.held[id] < s.table.minted)
    && (forall a, b :: a in s.table.held && b in s.table.held && s.table.held[a] == s.table.held[b] ==> a == b)
  }

  ghost predicate LockedByOne(s: State) {
    && (forall t <- s.threads :: s.threads[t].Inside? ==>
          s.threads[t].lock in s.locked && s.locked[s.threads[t].lock] == t)
    && (forall m <- s.locked :: s.locked[m] in s.threads && s.threads[s.locked[m]].Inside?
          && s.threads[s.locked[m]].lock == m)
  }

  ghost predicate Inv(s: State) {
    OneMutexPerId(s) && Counted(s) && Distinct(s) && LockedByOne(s)
  }

  lemma EnterKeepsCounts(s: State, t: Thread, id: Id)
    requires Counted(s) && t !in s.threads
    ensures Counted(Apply(s, Enter(t, id)))
  {
    var s' := Apply(s, Enter(t, id));
    assert Users(s'.threads, id) == Users(s.threads, id) + {t};
    forall other
      ensures WaitsOf(s'.table, other) == |Users(s'.threads, other)|
    {
      if other != id {
        assert Users(s'.threads, other) == Users(s.threads, other);
      }
    }
  }

  lemma LeaveKeepsCounts(s: State, t: Thread)
    requires Counted(s) && Enabled(s, Leave(t))
    ensures Counted(Apply(s, Leave(t)))
  {
    var s' := Apply(s, Leave(t));
    var id := s.threads[t].id;
    assert t in Users(s.threads, id);
    assert Users(s'.threads, id) == Users(s.threads, id) - {t};
    forall other
      ensures WaitsOf(s'.table, other) == |Users(s'.threads, other)|
    {
      if other != id {
        assert Users(s'.threads, other) == Users(s.threads, other);
      }
    }
  }

  /** The entry goes only with its last user, so nobody is left holding a mutex the table forgot. */
  lemma LeaveKeepsMutexes(s: State, t: Thread)
    requires Inv(s) && Enabled(s, Leave(t))
    ensures OneMutexPerId(Apply(s, Leave(t)))
  {
    var s' := Apply(s, Leave(t));
    LeaveKeepsCounts(s, t);
    forall u <- s'.threads
      ensures s'.threads[u].id in s'.table.held
    {
      assert u in Users(s'.threads, s'.threads[u].id);
    }
  }

  lemma LockingKeepsCounts(s: State, e: Event)
    requires Counted(s) && Enabled(s, e) && (e.Acquire? || e.Unlock?)
    ensures Counted(Apply(s, e))
  {
    var s' := Apply(s, e);
    forall id
      ensures WaitsOf(s'.table, id) == |Users(s'.threads, id)|
    {
      assert Users(s'.threads, id) == Users(s.threads, id);
    }
  }

  lemma StepKeepsCounts(s: State, e: Event)
    requires Counted(s) && Enabled(s, e)
    ensures Counted(Apply(s, e))
  {
    match e
    case Enter(t, id) => EnterKeepsCounts(s, t, id);
    case Leave(t) => LeaveKeepsCounts(s, t);
    case _ => LockingKeepsCounts(s, e);
  }

  lemma StepKeepsHolders(s: State, e: Event)
    requires Inv(s) && Enabled(s, e)
    ensures LockedByOne(Apply(s, e))
  {
  }

  lemma StepKeepsInv(s: State, e: Event)
    requires Inv(s) && Enabled(s, e)
    ensures Inv(Apply(s, e))
  {
    StepKeepsCounts(s, e);
    StepKeepsHolders(s, e);
    if e.Leave? {
      LeaveKeepsMutexes(s, e.t);
    }
  }

  lemma {:induction false} RunKeepsInv(es: seq<Event>)
    requires Run(es).Some?
    ensures Inv(Run(es).value)
  {
    if es != [] {
      RunKeepsInv(es[..|es| - 1]);
      StepKeepsInv(Run(es[..|es| - 1]).value, es[|es| - 1]);
    }
  }

  /** At most one thread is in the critical section of an id, in every interleaving. */
  lemma MutualExclusion(es: seq<Event>, t: Thread, u: Thread)
    requires Run(es).Some?
    requires var threads := Run(es).value.threads;
      t in threads && u in threads && threads[t].Inside? && threads[u].Inside? && threads[t].id == threads[u].id
    ensures t == u
  {
    RunKeepsInv(es);
  }

  /** Those taking part in one id share one mutex, waits counts them, and an id nobody uses leaves nothing behind. */
  lemma TableIsExact(es: seq<Event>, id: Id)
    requires Run(es).Some?
    ensures var s := Run(es).value;
      && WaitsOf(s.table, id) == |Users(s.threads, id)|
      && (id in s.table.held <==> Users(s.threads, id) != {})
      && (id in s.table.waits <==> Users(s.threads, id) != {})
      && forall t <- Users(s.threads, id) :: s.threads[t].Leaving? || s.threads[t].lock == s.table.held[id]
  {
    RunKeepsInv(es);
    var s := Run(es).value;
    if Users(s.threads, id) != {} {
      var t :| t in Users(s.threads, id);
    }
  }

  /** Nobody waits for another id, or for a mutex nobody holds: a queued thread can go on, or the one inside can. */
  lemma NoLostLock(es: seq<Event>, t: Thread)
    requires Run(es).Some? && t in Run(es).value.threads && Run(es).value.threads[t].Queued?
    ensures var s := Run(es).value;
      || Enabled(s, Acquire(t))
      || exists u :: u in s.threads && s.threads[u].id == s.threads[t].id && Enabled(s, Unlock(u))
  {
    RunKeepsInv(es);
    var s := Run(es).value;
    if s.threads[t].lock in s.locked {
      var u := s.locked[s.threads[t].lock];
      assert s.table.held[s.threads[u].id] == s.table.held[s.threads[t].id];
      assert Enabled(s, Unlock(u));
    }
  }
}
