/**
 What bounds a failed forward: one question per route at a time, its answer standing for a window.
 The class is the critical sections; the system interleaves them with the question itself, with the
 waiters, and with the table being told afresh.
 */
module ReResolvers {
  import opened Collections

  type Id = string
  type Thread = nat

  /** Where an answer lives: answers are never moved, and outlive being forgotten. */
  type Cell = nat

  /** Nanoseconds. */
  const WINDOW := 5_000_000_000

  /** going is a ready channel that is still there; until stands once it is not. */
  datatype Answer = Answer(going: bool, dropped: bool, until: int)

  datatype Table = Table(answers: map<Id, Cell>, cells: seq<Answer>) {
    predicate Valid() {
      forall id <- answers :: answers[id] < |cells|
    }
  }

  /** What the first critical section comes to: wait for a call that is going, take what one said, or make one. */
  datatype Next = Wait(cell: Cell) | Take(dropped: bool) | Ask(cell: Cell)

  function Asked(t: Table, id: Id, now: int): Next
    requires t.Valid()
  {
    if id in t.answers && t.cells[t.answers[id]].going then Wait(t.answers[id])
    else if id in t.answers && now < t.cells[t.answers[id]].until then Take(t.cells[t.answers[id]].dropped)
    else Ask(|t.cells|)
  }

  function Began(t: Table, id: Id): Table {
    Table(t.answers[id := |t.cells|], t.cells + [Answer(true, false, 0)])
  }

  function Published(t: Table, cell: Cell, dropped: bool, now: int): Table
    requires cell < |t.cells|
  {
    t.(cells := t.cells[cell := Answer(false, dropped, now + WINDOW)])
  }

  /** What a waiter reads once it is let through: the table again, which may have moved on. */
  function Reread(t: Table, id: Id): bool
    requires t.Valid()
  {
    id in t.answers && t.cells[t.answers[id]].dropped
  }

  class ReResolver {
    var answers: map<Id, Cell>
    var cells: seq<Answer>

    ghost function View(): Table
      reads this
    {
      Table(answers, cells)
    }

    constructor ()
      ensures View() == Table(map[], [])
    {
      answers, cells := map[], [];
    }

    /** The critical section a call of resolve opens with. */
    method Begin(id: Id, now: int) returns (next: Next)
      requires View().Valid()
      modifies this
      ensures View().Valid()
      ensures next == Asked(old(View()), id, now)
      ensures View() == if next.Ask? then Began(old(View()), id) else old(View())
    {
      if id in answers {
        var held := answers[id];
        if cells[held].going {
          return Wait(held);
        }
        if now < cells[held].until {
          return Take(cells[held].dropped);
        }
      }
      next := Ask(|cells|);
      answers := answers[id := |cells|];
      cells := cells + [Answer(true, false, 0)];
    }

    /** The one it closes with, by the caller that asked. */
    method Publish(mine: Cell, dropped: bool, now: int)
      requires View().Valid() && mine < |cells|
      modifies this`cells
      ensures View().Valid() && View() == Published(old(View()), mine, dropped, now)
    {
      cells := cells[mine := Answer(false, dropped, now + WINDOW)];
    }

    /** The one a waiter has instead. */
    method After(id: Id) returns (dropped: bool)
      requires View().Valid()
      ensures dropped == Reread(View(), id)
    {
      dropped := false;
      if id in answers {
        dropped := cells[answers[id]].dropped;
      }
    }

    method Forget(id: Id)
      requires View().Valid()
      modifies this`answers
      ensures View().Valid() && View() == old(View()).(answers := old(answers) - {id})
    {
      answers := answers - {id};
    }

    method ForgetAll()
      requires View().Valid()
      modifies this`answers
      ensures View().Valid() && View() == old(View()).(answers := map[])
    {
      answers := map[];
    }
  }

  /** Where a caller of resolve stands. now is the time it came with. */
  datatype Place =
    | Asking(id: Id, now: int, cell: Cell)
    | Answered(id: Id, now: int, cell: Cell, said: bool)
    | Closing(id: Id, cell: Cell, said: bool)
    | Waiting(id: Id, cell: Cell)

  /** What is only remembered of a call to the runtime: between which forgets of its id it was begun, and by whom. */
  datatype Call = Call(id: Id, epoch: nat, start: int, asker: Thread, said: Option<bool>)

  datatype Returned = Returned(id: Id, dropped: bool)

  datatype State = State(
    table: Table, threads: map<Thread, Place>, closed: set<Cell>,
    calls: seq<Call>, forgets: map<Id, nat>, reloads: nat, returned: seq<Returned>)

  datatype Event =
    | Enter(t: Thread, id: Id, now: int)
    | Hear(t: Thread, said: bool)
    | Publish(t: Thread)
    | Close(t: Thread)
    | Wake(t: Thread)
    | Forget(id: Id)
    | ForgetAll

  const START := State(Table(map[], []), map[], {}, [], map[], 0, [])

  /** How often what is remembered about an id was dropped. */
  function Epoch(s: State, id: Id): nat {
    s.reloads + if id in s.forgets then s.forgets[id] else 0
  }

  /** The history lists every cell, and no place is a cell that is not there. */
  ghost predicate Formed(s: State) {
    && s.table.Valid() && |s.calls| == |s.table.cells|
    && (forall t <- s.threads :: s.threads[t].cell < |s.calls|)
    && (forall c <- s.closed :: c < |s.calls|)
  }

  predicate Enabled(s: State, e: Event) {
    match e
    case Enter(t, _, _) => t !in s.threads
    case Hear(t, _) => t in s.threads && s.threads[t].Asking?
    case Publish(t) => t in s.threads && s.threads[t].Answered?
    case Close(t) => t in s.threads && s.threads[t].Closing?
    case Wake(t) => t in s.threads && s.threads[t].Waiting? && s.threads[t].cell in s.closed
    case Forget(_) => true
    case ForgetAll => true
  }

  function Return(s: State, id: Id, dropped: bool): State {
    s.(returned := s.returned + [Returned(id, dropped)])
  }

  function Entered(s: State, t: Thread, id: Id, now: int): State
    requires s.table.Valid()
  {
    match Asked(s.table, id, now)
    case Wait(cell) => s.(threads := s.threads[t := Waiting(id, cell)])
    case Take(dropped) => Return(s, id, dropped)
    case Ask(cell) =>
      s.(table := Began(s.table, id), threads := s.threads[t := Asking(id, now, cell)],
         calls := s.calls + [Call(id, Epoch(s, id), now, t, None)])
  }

  ghost function Apply(s: State, e: Event): State
    requires Formed(s) && Enabled(s, e)
  {
    match e
    case Enter(t, id, now) => Entered(s, t, id, now)
    case Hear(t, said) =>
      var p := s.threads[t];
      s.(threads := s.threads[t := Answered(p.id, p.now, p.cell, said)],
         calls := s.calls[p.cell := s.calls[p.cell].(said := Some(said))])
    case Publish(t) =>
      var p := s.threads[t];
      s.(table := Published(s.table, p.cell, p.said, p.now), threads := s.threads[t := Closing(p.id, p.cell, p.said)])
    case Close(t) =>
      var p := s.threads[t];
      Return(s.(closed := s.closed + {p.cell}, threads := s.threads - {t}), p.id, p.said)
    case Wake(t) =>
      var p := s.threads[t];
      Return(s.(threads := s.threads - {t}), p.id, Reread(s.table, p.id))
    case Forget(id) =>
      s.(table := s.table.(answers := s.table.answers - {id}),
         forgets := s.forgets[id := (if id in s.forgets then s.forgets[id] else 0) + 1])
    case ForgetAll => s.(table := s.table.(answers := map[]), reloads := s.reloads + 1)
  }

  ghost function Run(es: seq<Event>): Option<State> {
    if es == [] then Some(START)
    else
      match Run(es[..|es| - 1])
      case None => None
      case Some(s) => if Formed(s) && Enabled(s, es[|es| - 1]) then Some(Apply(s, es[|es| - 1])) else None
  }

  /** The entry of an id is its last call since it was forgotten, and there is one if there was such a call. */
  ghost predicate EntryIsLast(s: State)
    requires Formed(s)
  {
    && (forall id <- s.table.answers ::
          s.calls[s.table.answers[id]].id == id && s.calls[s.table.answers[id]].epoch == Epoch(s, id))
    && (forall c | 0 <= c < |s.calls| :: s.calls[c].epoch <= Epoch(s, s.calls[c].id))
    && (forall c | 0 <= c < |s.calls| && s.calls[c].epoch == Epoch(s, s.calls[c].id) ::
          s.calls[c].id in s.table.answers && c <= s.table.answers[s.calls[c].id])
  }

  /** A call that is over holds what the runtime said and stands for its window; one that is going says no. */
  ghost predicate CellsSay(s: State)
    requires Formed(s)
  {
    forall c | 0 <= c < |s.calls| ::
      var a := s.table.cells[c];
      if a.going then !a.dropped else s.calls[c].said == Some(a.dropped) && a.until == s.calls[c].start + WINDOW
  }

  /** Two calls for one id with no forget between: the first was over, a window before the second. */
  ghost predicate CallsApart(s: State)
    requires Formed(s)
  {
    forall c, d | 0 <= c < d < |s.calls| && s.calls[c].id == s.calls[d].id && s.calls[c].epoch == s.calls[d].epoch ::
      !s.table.cells[c].going && s.calls[d].start >= s.calls[c].start + WINDOW
  }

  /** A caller on its way with a call is the one that made it. */
  ghost predicate AskersOwn(s: State)
    requires Formed(s)
  {
    forall t <- s.threads ::
      var p := s.threads[t];
      var call := s.calls[p.cell];
      && p.id == call.id
      && (p.Asking? ==> call.asker == t && s.table.cells[p.cell].going && call.said == None && p.now == call.start)
      && (p.Answered? ==>
            call.asker == t && s.table.cells[p.cell].going && call.said == Some(p.said) && p.now == call.start)
      && (p.Closing? ==> call.asker == t && !s.table.cells[p.cell].going && call.said == Some(p.said))
      && (!p.Waiting? ==> p.cell !in s.closed)
  }

  /** A channel that is not closed has its closer on the way. */
  ghost predicate WaitersAwaited(s: State)
    requires Formed(s)
  {
    forall c | 0 <= c < |s.calls| && c !in s.closed ::
      var t := s.calls[c].asker;
      t in s.threads && !s.threads[t].Waiting? && s.threads[t].cell == c
  }

  /** Some call for this id said that its container is gone. */
  ghost predicate SomeSaidGone(s: State, id: Id) {
    exists c :: 0 <= c < |s.calls| && s.calls[c].id == id && s.calls[c].said == Some(true)
  }

  ghost predicate ReturnsTrue(s: State) {
    forall i | 0 <= i < |s.returned| && s.returned[i].dropped :: SomeSaidGone(s, s.returned[i].id)
  }

  ghost predicate Inv(s: State) {
    && Formed(s) && EntryIsLast(s) && CellsSay(s) && CallsApart(s) && AskersOwn(s) && WaitersAwaited(s)
    && ReturnsTrue(s)
  }

  lemma EnterKeepsFormed(s: State, t: Thread, id: Id, now: int)
    requires Formed(s) && t !in s.threads
    ensures Formed(Entered(s, t, id, now))
  {
  }

  lemma StepKeepsFormed(s: State, e: Event)
    requires Formed(s) && Enabled(s, e)
    ensures Formed(Apply(s, e))
  {
    match e
    case Enter(t, id, now) => EnterKeepsFormed(s, t, id, now);
    case Hear(t, said) =>
    case Publish(t) =>
    case Close(t) =>
    case Wake(t) =>
    case _ =>
  }

  lemma BeginKeepsEntries(s: State, t: Thread, id: Id, now: int)
    requires Formed(s) && EntryIsLast(s) && t !in s.threads && Asked(s.table, id, now).Ask?
    ensures Formed(Entered(s, t, id, now)) && EntryIsLast(Entered(s, t, id, now))
  {
    EnterKeepsFormed(s, t, id, now);
    var s' := Entered(s, t, id, now);
    var n := |s.calls|;
    assert s'.table.answers == s.table.answers[id := n] && s'.calls[n].id == id;
    forall other
      ensures Epoch(s', other) == Epoch(s, other)
    {
    }
    forall c | 0 <= c < n
      ensures s'.calls[c] == s.calls[c]
    {
    }
  }

  lemma EnterKeepsEntries(s: State, t: Thread, id: Id, now: int)
    requires Formed(s) && EntryIsLast(s) && t !in s.threads
    ensures Formed(Entered(s, t, id, now)) && EntryIsLast(Entered(s, t, id, now))
  {
    match Asked(s.table, id, now)
    case Ask(_) => BeginKeepsEntries(s, t, id, now);
    case Wait(_) => SameEntries(s, Entered(s, t, id, now));
    case Take(_) => SameEntries(s, Entered(s, t, id, now));
  }

  /** What the entries are about is left alone, up to what a call was told. */
  lemma SameEntries(s: State, s': State)
    requires Formed(s) && EntryIsLast(s) && Formed(s') && |s'.calls| == |s.calls|
    requires s'.table.answers == s.table.answers && s'.forgets == s.forgets && s'.reloads == s.reloads
    requires forall c | 0 <= c < |s.calls| :: s'.calls[c].id == s.calls[c].id && s'.calls[c].epoch == s.calls[c].epoch
    ensures EntryIsLast(s')
  {
    forall id
      ensures Epoch(s', id) == Epoch(s, id)
    {
    }
  }

  lemma ForgettingKeepsEntries(s: State, e: Event)
    requires Formed(s) && EntryIsLast(s) && (e.Forget? || e.ForgetAll?)
    ensures Formed(Apply(s, e)) && EntryIsLast(Apply(s, e))
  {
    var s' := Apply(s, e);
    forall id
      ensures Epoch(s', id) == Epoch(s, id) + if e.ForgetAll? || e.id == id then 1 else 0
    {
    }
  }

  lemma StepKeepsEntries(s: State, e: Event)
    requires Formed(s) && EntryIsLast(s) && Enabled(s, e)
    ensures Formed(Apply(s, e)) && EntryIsLast(Apply(s, e))
  {
    StepKeepsFormed(s, e);
    match e
    case Enter(t, id, now) => EnterKeepsEntries(s, t, id, now);
    case Forget(_) => ForgettingKeepsEntries(s, e);
    case ForgetAll => ForgettingKeepsEntries(s, e);
    case _ => SameEntries(s, Apply(s, e));
  }

  lemma EnterKeepsCells(s: State, t: Thread, id: Id, now: int)
    requires Formed(s) && CellsSay(s) && t !in s.threads
    ensures Formed(Entered(s, t, id, now)) && CellsSay(Entered(s, t, id, now))
  {
    EnterKeepsFormed(s, t, id, now);
    var s' := Entered(s, t, id, now);
    forall c | 0 <= c < |s.calls|
      ensures s'.table.cells[c] == s.table.cells[c] && s'.calls[c] == s.calls[c]
    {
    }
  }

  /** A call that is on its way: only its own cell is told, and only its own cell is over. */
  lemma CallKeepsCells(s: State, e: Event)
    requires Inv(s) && Enabled(s, e) && (e.Hear? || e.Publish?)
    ensures Formed(Apply(s, e)) && CellsSay(Apply(s, e))
  {
    StepKeepsFormed(s, e);
    var s', p := Apply(s, e), s.threads[e.t];
    assert p.id == s.calls[p.cell].id;
    forall c | 0 <= c < |s.calls| && c != p.cell
      ensures s'.table.cells[c] == s.table.cells[c] && s'.calls[c] == s.calls[c]
    {
    }
  }

  lemma StepKeepsCells(s: State, e: Event)
    requires Inv(s) && Enabled(s, e)
    ensures Formed(Apply(s, e)) && CellsSay(Apply(s, e))
  {
    match e
    case Enter(t, id, now) => EnterKeepsCells(s, t, id, now);
    case Hear(_, _) => CallKeepsCells(s, e);
    case Publish(_) => CallKeepsCells(s, e);
    case _ => StepKeepsFormed(s, e);
  }

  /** A call is begun only where the entry is over and its window past, and the entry is the last call. */
  lemma EnterKeepsApart(s: State, t: Thread, id: Id, now: int)
    requires Inv(s) && t !in s.threads
    ensures Formed(Entered(s, t, id, now)) && CallsApart(Entered(s, t, id, now))
  {
    EnterKeepsFormed(s, t, id, now);
    var s' := Entered(s, t, id, now);
    if Asked(s.table, id, now).Ask? {
      var n := |s.calls|;
      forall c | 0 <= c < n && s.calls[c].id == id && s.calls[c].epoch == Epoch(s, id)
        ensures !s.table.cells[c].going && now >= s.calls[c].start + WINDOW
      {
        var last := s.table.answers[id];
        if c < last {
          assert s.calls[last].id == s.calls[c].id;
        }
      }
      assert forall c | 0 <= c < n :: s'.calls[c] == s.calls[c] && s'.table.cells[c] == s.table.cells[c];
    }
  }

  lemma StepKeepsApart(s: State, e: Event)
    requires Inv(s) && Enabled(s, e)
    ensures Formed(Apply(s, e)) && CallsApart(Apply(s, e))
  {
    StepKeepsFormed(s, e);
    match e
    case Enter(t, id, now) => EnterKeepsApart(s, t, id, now);
    case Hear(t, said) =>
    case Publish(t) =>
    case Close(t) =>
    case Wake(t) =>
    case _ =>
  }

  lemma BeginKeepsAskers(s: State, t: Thread, id: Id, now: int)
    requires Inv(s) && t !in s.threads && Asked(s.table, id, now).Ask?
    ensures Formed(Entered(s, t, id, now))
    ensures AskersOwn(Entered(s, t, id, now)) && WaitersAwaited(Entered(s, t, id, now))
  {
    EnterKeepsFormed(s, t, id, now);
    var s' := Entered(s, t, id, now);
    forall u <- s'.threads | u != t
      ensures s'.threads[u] == s.threads[u] && s'.threads[u].cell < |s.calls|
      ensures s'.calls[s.threads[u].cell] == s.calls[s.threads[u].cell]
      ensures s'.table.cells[s.threads[u].cell] == s.table.cells[s.threads[u].cell]
    {
    }
    forall c | 0 <= c < |s.calls| && c !in s.closed
      ensures s'.calls[c] == s.calls[c] && s.calls[c].asker != t
    {
    }
  }

  lemma EnterKeepsAskers(s: State, t: Thread, id: Id, now: int)
    requires Inv(s) && t !in s.threads
    ensures Formed(Entered(s, t, id, now))
    ensures AskersOwn(Entered(s, t, id, now)) && WaitersAwaited(Entered(s, t, id, now))
  {
    EnterKeepsFormed(s, t, id, now);
    match Asked(s.table, id, now)
    case Ask(_) => BeginKeepsAskers(s, t, id, now);
    case Wait(_) =>
    case Take(_) =>
  }

  lemma StepKeepsAskers(s: State, e: Event)
    requires Inv(s) && Enabled(s, e)
    ensures Formed(Apply(s, e)) && AskersOwn(Apply(s, e)) && WaitersAwaited(Apply(s, e))
  {
    StepKeepsFormed(s, e);
    match e
    case Enter(t, id, now) => EnterKeepsAskers(s, t, id, now);
    case Hear(t, said) => HearKeepsAskers(s, t, said);
    case Publish(t) => PublishKeepsAskers(s, t);
    case Close(t) =>
    case Wake(t) =>
    case _ =>
  }

  lemma HearKeepsAskers(s: State, t: Thread, said: bool)
    requires Inv(s) && Enabled(s, Hear(t, said))
    ensures var s' := Apply(s, Hear(t, said)); Formed(s') && AskersOwn(s') && WaitersAwaited(s')
  {
    StepKeepsFormed(s, Hear(t, said));
  }

  /** Another caller on its way with a call is not on its way with this one. */
  lemma OthersCallsAreApart(s: State, t: Thread, u: Thread)
    requires Inv(s) && t in s.threads && u in s.threads && u != t
    requires !s.threads[t].Waiting? && !s.threads[u].Waiting?
    ensures s.threads[u].cell != s.threads[t].cell
  {
    assert s.calls[s.threads[t].cell].asker == t && s.calls[s.threads[u].cell].asker == u;
  }

  lemma PublishKeepsOwn(s: State, t: Thread)
    requires Inv(s) && Enabled(s, Publish(t))
    ensures Formed(Apply(s, Publish(t))) && AskersOwn(Apply(s, Publish(t)))
  {
    StepKeepsFormed(s, Publish(t));
    var s' := Apply(s, Publish(t));
    var p := s.threads[t];
    assert s'.calls == s.calls && s'.closed == s.closed && s.calls[p.cell].asker == t;
    forall u <- s'.threads | u != t
      ensures s'.threads[u] == s.threads[u]
      ensures !s.threads[u].Waiting? ==> s'.table.cells[s.threads[u].cell] == s.table.cells[s.threads[u].cell]
    {
      if !s.threads[u].Waiting? {
        OthersCallsAreApart(s, t, u);
      }
    }
  }

  lemma PublishKeepsAskers(s: State, t: Thread)
    requires Inv(s) && Enabled(s, Publish(t))
    ensures var s' := Apply(s, Publish(t)); Formed(s') && AskersOwn(s') && WaitersAwaited(s')
  {
    PublishKeepsOwn(s, t);
    var s' := Apply(s, Publish(t));
    forall c | 0 <= c < |s'.calls| && c !in s'.closed
      ensures var u := s'.calls[c].asker;
        u in s'.threads && !s'.threads[u].Waiting? && s'.threads[u].cell == c
    {
      assert c < |s.calls| && c !in s.closed;
      assert s'.calls[c] == s.calls[c];
      assert s.threads[s.calls[c].asker].cell == c;
    }
  }

  lemma SaidStays(s: State, e: Event, id: Id)
    requires Inv(s) && Enabled(s, e) && SomeSaidGone(s, id)
    ensures SomeSaidGone(Apply(s, e), id)
  {
    var c :| 0 <= c < |s.calls| && s.calls[c].id == id && s.calls[c].said == Some(true);
    assert Apply(s, e).calls[c] == s.calls[c];
  }

  lemma StepKeepsReturns(s: State, e: Event)
    requires Inv(s) && Enabled(s, e)
    ensures ReturnsTrue(Apply(s, e))
  {
    var s' := Apply(s, e);
    forall i | 0 <= i < |s'.returned| && s'.returned[i].dropped
      ensures SomeSaidGone(s', s'.returned[i].id)
    {
      if i < |s.returned| {
        SaidStays(s, e, s.returned[i].id);
      }
    }
  }

  lemma StepKeepsInv(s: State, e: Event)
    requires Inv(s) && Enabled(s, e)
    ensures Inv(Apply(s, e))
  {
    StepKeepsEntries(s, e);
    StepKeepsCells(s, e);
    StepKeepsApart(s, e);
    StepKeepsAskers(s, e);
    StepKeepsReturns(s, e);
  }

  lemma {:induction false} RunKeepsInv(es: seq<Event>)
    requires Run(es).Some?
    ensures Inv(Run(es).value)
  {
    if es != [] {
      RunKeepsInv(es[..|es| - 1]);
      StepKeepsInv(Run(es[..|es| - 1]).value, es[|es| - 1]);
    }
  }

  /** Between forgets of an id the calls for it never overlap, and begin at least a window apart. */
  lemma CallsNeverOverlap(es: seq<Event>, c: Cell, d: Cell)
    requires Run(es).Some? && c < d < |Run(es).value.calls|
    requires var calls := Run(es).value.calls; calls[c].id == calls[d].id && calls[c].epoch == calls[d].epoch
    ensures var s := Run(es).value;
      && Formed(s) && !s.table.cells[c].going && s.calls[d].start >= s.calls[c].start + WINDOW
      && forall t <- s.threads :: s.threads[t].cell == c ==> s.threads[t].Closing? || s.threads[t].Waiting?
  {
    RunKeepsInv(es);
  }

  /** A caller is sent away with yes only where some call for its id was told that the container is gone. */
  lemma YesWasSaid(es: seq<Event>, i: nat)
    requires Run(es).Some? && i < |Run(es).value.returned| && Run(es).value.returned[i].dropped
    ensures SomeSaidGone(Run(es).value, Run(es).value.returned[i].id)
  {
    RunKeepsInv(es);
  }

  /** While an answer stands, every caller is given exactly what the last call was told, and nothing is asked. */
  lemma FreshAnswerIsTheVerdict(es: seq<Event>, id: Id, now: int)
    requires Run(es).Some? && id in Run(es).value.table.answers
    ensures var s := Run(es).value;
      && Formed(s)
      && var c := s.table.answers[id];
      && s.calls[c].id == id && s.calls[c].epoch == Epoch(s, id)
      && (!s.table.cells[c].going && now < s.calls[c].start + WINDOW ==>
            s.calls[c].said.Some? && Asked(s.table, id, now) == Take(s.calls[c].said.value))
      && (!s.table.cells[c].going && now >= s.calls[c].start + WINDOW ==> Asked(s.table, id, now).Ask?)
      && (s.table.cells[c].going ==> Asked(s.table, id, now) == Wait(c))
  {
    RunKeepsInv(es);
  }

  /** A waiter is given the verdict it waited for as long as no forget and no later call came between. */
  lemma WaiterHearsItsCall(es: seq<Event>, t: Thread)
    requires Run(es).Some? && Enabled(Run(es).value, Wake(t))
    requires var s := Run(es).value;
      s.threads[t].id in s.table.answers && s.table.answers[s.threads[t].id] == s.threads[t].cell
    ensures var s := Run(es).value;
      && Formed(s) && s.calls[s.threads[t].cell].said == Some(Reread(s.table, s.threads[t].id))
  {
    RunKeepsInv(es);
    ClosedIsOver(es);
  }

  /**
   What a waiter hears in general, whatever was forgotten and asked since: of a call that was told yes it
   says no exactly where the entry is gone, or is another call that is still going or was told no; of a
   call that was told no it says yes exactly where the entry is another call that is over and was told yes.
   */
  lemma WaiterHearsTheEntry(es: seq<Event>, t: Thread)
    requires Run(es).Some? && Enabled(Run(es).value, Wake(t))
    ensures var s := Run(es).value;
      && Formed(s)
      && var id, cell := s.threads[t].id, s.threads[t].cell;
      && s.calls[cell].said.Some?
      && (s.calls[cell].said == Some(true) ==>
            (!Reread(s.table, id) <==>
              || id !in s.table.answers
              || (var d := s.table.answers[id];
                  d != cell && (s.table.cells[d].going || s.calls[d].said == Some(false)))))
      && (s.calls[cell].said == Some(false) ==>
            (Reread(s.table, id) <==>
              && id in s.table.answers
              && var d := s.table.answers[id];
                 d != cell && !s.table.cells[d].going && s.calls[d].said == Some(true)))
  {
    RunKeepsInv(es);
    ClosedIsOver(es);
    var s := Run(es).value;
    assert !s.table.cells[s.threads[t].cell].going;
  }

  /** Where nothing was forgotten since its call was begun, the entry is that call or a later one of its id. */
  lemma UnforgottenEntryIsThere(es: seq<Event>, t: Thread)
    requires Run(es).Some? && t in Run(es).value.threads
    ensures var s := Run(es).value;
      && Formed(s)
      && var id, cell := s.threads[t].id, s.threads[t].cell;
      && s.calls[cell].epoch <= Epoch(s, id)
      && (s.calls[cell].epoch == Epoch(s, id) ==> id in s.table.answers && cell <= s.table.answers[id])
  {
    RunKeepsInv(es);
  }

  ghost predicate ClosedAreOver(s: State) {
    forall c <- s.closed :: c < |s.table.cells| && !s.table.cells[c].going
  }

  lemma {:induction false} ClosedIsOver(es: seq<Event>)
    requires Run(es).Some?
    ensures ClosedAreOver(Run(es).value)
  {
    if es != [] {
      var init, e := es[..|es| - 1], es[|es| - 1];
      ClosedIsOver(init);
      RunKeepsInv(init);
      ClosingKeepsOver(Run(init).value, e);
    }
  }

  lemma ClosingKeepsOver(s: State, e: Event)
    requires Inv(s) && Enabled(s, e) && ClosedAreOver(s)
    ensures ClosedAreOver(Apply(s, e))
  {
    match e
    case Enter(t, id, now) =>
    case Hear(t, said) =>
    case Publish(t) =>
    case Close(t) =>
    case Wake(t) =>
    case _ =>
  }

  /** Nobody waits for ever: the call it waits for is over, or the caller that makes it can take its next step. */
  lemma WaitersAreLetThrough(es: seq<Event>, t: Thread)
    requires Run(es).Some? && t in Run(es).value.threads && Run(es).value.threads[t].Waiting?
    ensures var s := Run(es).value;
      || Enabled(s, Wake(t))
      || exists u :: u in s.threads && s.threads[u].cell == s.threads[t].cell && !s.threads[u].Waiting?
  {
    RunKeepsInv(es);
    var s := Run(es).value;
    if s.threads[t].cell !in s.closed {
      var u := s.calls[s.threads[t].cell].asker;
      assert u in s.threads;
    }
  }

  lemma RunSnoc(es: seq<Event>, e: Event)
    requires Run(es).Some? && Formed(Run(es).value) && Enabled(Run(es).value, e)
    ensures Run(es + [e]) == Some(Apply(Run(es).value, e))
  {
    assert (es + [e])[..|es + [e]| - 1] == es;
  }

  /** A call for id with a second caller waiting for it. */
  lemma TwoCallers(id: Id) returns (es: seq<Event>)
    ensures Run(es) == Some(State(
      Table(map[id := 0], [Answer(true, false, 0)]), map[1 := Asking(id, 0, 0), 2 := Waiting(id, 0)], {},
      [Call(id, 0, 0, 1, None)], map[], 0, []))
  {
    es := [];
    RunSnoc(es, Enter(1, id, 0));
    es := es + [Enter(1, id, 0)];
    var s := Run(es).value;
    assert s.table.answers == map[id := 0] && s.threads == map[1 := Asking(id, 0, 0)];
    assert s.calls == [Call(id, 0, 0, 1, None)] && s.table.cells == [Answer(true, false, 0)];
    RunSnoc(es, Enter(2, id, 0));
    es := es + [Enter(2, id, 0)];
    assert Run(es).value.threads == map[1 := Asking(id, 0, 0), 2 := Waiting(id, 0)];
  }

  lemma ThenHeard(id: Id) returns (es: seq<Event>)
    ensures Run(es) == Some(State(
      Table(map[id := 0], [Answer(true, false, 0)]), map[1 := Answered(id, 0, 0, true), 2 := Waiting(id, 0)], {},
      [Call(id, 0, 0, 1, Some(true))], map[], 0, []))
  {
    es := TwoCallers(id);
    RunSnoc(es, Hear(1, true));
    es := es + [Hear(1, true)];
    assert Run(es).value.threads == map[1 := Answered(id, 0, 0, true), 2 := Waiting(id, 0)];
    assert Run(es).value.calls == [Call(id, 0, 0, 1, Some(true))];
  }

  lemma ThenPublished(id: Id) returns (es: seq<Event>)
    ensures Run(es) == Some(State(
      Table(map[id := 0], [Answer(false, true, WINDOW)]), map[1 := Closing(id, 0, true), 2 := Waiting(id, 0)], {},
      [Call(id, 0, 0, 1, Some(true))], map[], 0, []))
  {
    es := ThenHeard(id);
    RunSnoc(es, Publish(1));
    es := es + [Publish(1)];
    assert Run(es).value.threads == map[1 := Closing(id, 0, true), 2 := Waiting(id, 0)];
    assert Run(es).value.table.cells == [Answer(false, true, WINDOW)];
  }

  lemma ThenClosed(id: Id) returns (es: seq<Event>)
    ensures Run(es) == Some(State(
      Table(map[id := 0], [Answer(false, true, WINDOW)]), map[2 := Waiting(id, 0)], {0},
      [Call(id, 0, 0, 1, Some(true))], map[], 0, [Returned(id, true)]))
  {
    es := ThenPublished(id);
    RunSnoc(es, Close(1));
    es := es + [Close(1)];
    assert Run(es).value.threads == map[2 := Waiting(id, 0)];
    assert Run(es).value.returned == [Returned(id, true)] && Run(es).value.closed == {0};
  }

  /**
   Otherwise it may not be: a waiter reads the table again and not the call it waited for. Here the
   call is told yes, its caller says yes, and the waiter, let through after a forget, says no.
   */
  lemma SupersededWaiterHearsNo(id: Id) returns (es: seq<Event>)
    ensures Run(es).Some?
    ensures Run(es).value.calls == [Call(id, 0, 0, 1, Some(true))]
    ensures Run(es).value.returned == [Returned(id, true), Returned(id, false)]
  {
    es := ThenClosed(id);
    RunSnoc(es, Forget(id));
    es := es + [Forget(id)];
    RunSnoc(es, Wake(2));
    es := es + [Wake(2)];
  }
}
