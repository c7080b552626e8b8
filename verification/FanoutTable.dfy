/**
 The fan out's subscribers: one queue and one worker for each, made and stopped as registrations come
 and go. The class is what happens under the lock; the system adds what each call still owes once it
 has let go of it, in any interleaving, and the workers.
 */
module FanoutTable {
  import opened Collections

  type Id = string

  /** A subscriber is its address. */
  type Sub = nat

  /** What a queue belongs to. */
  datatype Want = Want(endpoint: string, owner: string, admin: bool)

  datatype Registration = Registration(want: Want, secret: string)

  datatype Info = Info(id: Id, want: Want, secret: string)

  /** info holds every subscriber ever made. */
  datatype Table = Table(subs: map<Id, Sub>, closed: bool, info: seq<Info>)

  /** A call under the lock: the table it leaves, and whom it has to stop and to start after it. */
  datatype Moves = Moves(table: Table, stopped: set<Sub>, started: set<Sub>)

  ghost predicate Formed(t: Table) {
    && (forall id <- t.subs :: t.subs[id] < |t.info| && t.info[t.subs[id]].id == id)
    && (t.closed ==> t.subs == map[])
  }

  ghost function Live(t: Table): set<Sub> {
    set id | id in t.subs :: t.subs[id]
  }

  predicate Keeps(t: Table, id: Id, want: Want) {
    id in t.subs && t.subs[id] < |t.info| && t.info[t.subs[id]].want == want
  }

  function Untracked(t: Table, id: Id): Moves {
    Moves(t.(subs := t.subs - {id}), if id in t.subs then {t.subs[id]} else {}, {})
  }

  function Tracked(t: Table, id: Id, r: Option<Registration>): Moves {
    if r == None then Untracked(t, id)
    else if t.closed then Moves(t, {}, {})
    else if Keeps(t, id, r.value.want) then
      var sub := t.subs[id];
      Moves(t.(info := t.info[sub := t.info[sub].(secret := r.value.secret)]), {}, {})
    else
      Moves(t.(subs := t.subs[id := |t.info|], info := t.info + [Info(id, r.value.want, r.value.secret)]),
            if id in t.subs then {t.subs[id]} else {}, {|t.info|})
  }

  ghost function Ended(t: Table): Moves {
    if t.closed then Moves(t, {}, {}) else Moves(t.(subs := map[], closed := true), Live(t), {})
  }

  predicate Stays(t: Table, wanted: map<Id, Registration>, id: Id) {
    id in wanted && Keeps(t, id, wanted[id].want)
  }

  ghost function Unwanted(t: Table, wanted: map<Id, Registration>): set<Sub> {
    set id | id in t.subs && !Stays(t, wanted, id) :: t.subs[id]
  }

  /** What a reload comes to: whoever is still wanted as it is keeps its queue, and nobody else is left. */
  ghost predicate Reloaded(t: Table, wanted: map<Id, Registration>, m: Moves) {
    if t.closed then m == Moves(t, {}, {})
    else
      && Formed(m.table) && !m.table.closed && m.table.subs.Keys == wanted.Keys
      && |t.info| <= |m.table.info| && m.table.info[..|t.info|] == Kept(t, wanted)
      && (forall id <- wanted :: m.table.info[m.table.subs[id]] == Info(id, wanted[id].want, wanted[id].secret))
      && (forall id <- wanted :: if Keeps(t, id, wanted[id].want) then m.table.subs[id] == t.subs[id]
           else m.table.subs[id] >= |t.info|)
      && (forall n | |t.info| <= n < |m.table.info| :: n in Live(m.table))
      && m.stopped == Unwanted(t, wanted)
      && m.started == (set id | id in wanted && !Keeps(t, id, wanted[id].want) :: m.table.subs[id])
  }

  /** The subscribers there were, with the secrets of those that stay replaced. */
  ghost function Kept(t: Table, wanted: map<Id, Registration>): (info: seq<Info>)
    ensures |info| == |t.info|
    ensures forall n | 0 <= n < |info| :: info[n] == KeptOne(t, wanted, n)
  {
    seq(|t.info|, n requires 0 <= n < |t.info| => KeptOne(t, wanted, n))
  }

  ghost function KeptOne(t: Table, wanted: map<Id, Registration>, n: nat): Info
    requires n < |t.info|
  {
    var was := t.info[n];
    if was.id in t.subs && t.subs[was.id] == n && was.id in wanted && was.want == wanted[was.id].want
    then was.(secret := wanted[was.id].secret) else was
  }

  class Fanout {
    var subs: map<Id, Sub>
    var closed: bool
    var info: seq<Info>

    ghost function View(): Table
      reads this
    {
      Table(subs, closed, info)
    }

    constructor ()
      ensures View() == Table(map[], false, [])
    {
      subs, closed, info := map[], false, [];
    }

    method NewSubscriber(id: Id, r: Registration) returns (sub: Sub)
      modifies this`info
      ensures sub == |old(info)| && info == old(info) + [Info(id, r.want, r.secret)]
    {
      sub := |info|;
      info := info + [Info(id, r.want, r.secret)];
    }

    method Untrack(id: Id) returns (stopped: Option<Sub>)
      modifies this`subs
      ensures Moves(View(), Only(stopped), {}) == Untracked(old(View()), id)
    {
      if id !in subs {
        return None;
      }
      stopped := Some(subs[id]);
      subs := subs - {id};
    }

    /** r is None where the registration asks for no fan out. */
    method Track(id: Id, r: Option<Registration>) returns (stopped: Option<Sub>, started: Option<Sub>)
      requires Formed(View())
      modifies this`subs, this`info
      ensures Formed(View())
      ensures Moves(View(), Only(stopped), Only(started)) == Tracked(old(View()), id, r)
    {
      if r == None {
        stopped := Untrack(id);
        return stopped, None;
      }
      if closed {
        return None, None;
      }
      if id in subs && info[subs[id]].want == r.value.want {
        info := info[subs[id] := info[subs[id]].(secret := r.value.secret)];
        return None, None;
      }
      stopped := if id in subs then Some(subs[id]) else None;
      var sub := NewSubscriber(id, r.value);
      subs := subs[id := sub];
      started := Some(sub);
    }

    /** One subscriber of the first loop of a reload. */
    method SiftOne(ghost t: Table, wanted: map<Id, Registration>, ghost seen: set<Id>, id: Id, stopped: set<Sub>,
        rest: map<Id, Registration>)
      returns (stopped': set<Sub>, rest': map<Id, Registration>)
      requires Formed(t) && Sifted(t, wanted, seen, subs, info, stopped, rest) && id in t.subs && id !in seen
      modifies this`subs, this`info
      ensures Sifted(t, wanted, seen + {id}, subs, info, stopped', rest')
    {
      SiftingOne(t, wanted, seen, subs, info, stopped, rest, id);
      var sub := subs[id];
      if id in wanted && info[sub].want == wanted[id].want {
        info := info[sub := info[sub].(secret := wanted[id].secret)];
        return stopped, rest - {id};
      }
      subs := subs - {id};
      return stopped + {sub}, rest;
    }

    /** Who is still wanted as it is keeps its queue, and its secret is replaced; the others leave the table. */
    method KeepWanted(wanted: map<Id, Registration>) returns (stopped: set<Sub>, rest: map<Id, Registration>)
      requires Formed(View())
      modifies this`subs, this`info
      ensures Sifted(old(View()), wanted, old(subs.Keys), subs, info, stopped, rest)
    {
      hide Sifted;
      ghost var t := View();
      stopped, rest := {}, wanted;
      NoneSifted(t, wanted);
      var ids := Enumerate(subs);
      ghost var seen: set<Id> := {};
      for i := 0 to |ids|
        invariant seen == set k | 0 <= k < i :: ids[k]
        invariant Sifted(t, wanted, seen, subs, info, stopped, rest)
      {
        assert ids[i] in ids;
        NotSeenBefore(ids, i);
        stopped, rest := SiftOne(t, wanted, seen, ids[i], stopped, rest);
        seen := seen + {ids[i]};
      }
      AllSeen(ids, t.subs.Keys, seen);
    }

    /** One subscriber of the second. */
    method BeginOne(ghost first: map<Id, Sub>, ghost before: seq<Info>, rest: map<Id, Registration>,
        ghost seen: set<Id>, id: Id, started: set<Sub>)
      returns (started': set<Sub>)
      requires Begun(first, before, rest, seen, subs, info, started) && id in rest && id !in seen && id !in first
      modifies this`subs, this`info
      ensures Begun(first, before, rest, seen + {id}, subs, info, started')
    {
      BeginningOne(first, before, rest, seen, subs, info, started, id);
      var sub := NewSubscriber(id, rest[id]);
      subs := subs[id := sub];
      started' := started + {sub};
    }

    /** And whoever is wanted and was not kept begins with a new queue. */
    method StartRest(rest: map<Id, Registration>) returns (started: set<Sub>)
      requires forall id <- rest :: id !in subs
      requires forall id <- subs :: subs[id] < |info|
      modifies this`subs, this`info
      ensures Begun(old(subs), old(info), rest, rest.Keys, subs, info, started)
    {
      started := {};
      var ids := Enumerate(rest);
      ghost var seen: set<Id> := {};
      for i := 0 to |ids|
        invariant seen == set k | 0 <= k < i :: ids[k]
        invariant Begun(old(subs), old(info), rest, seen, subs, info, started)
      {
        assert ids[i] in ids;
        NotSeenBefore(ids, i);
        started := BeginOne(old(subs), old(info), rest, seen, ids[i], started);
        seen := seen + {ids[i]};
      }
      AllSeen(ids, rest.Keys, seen);
    }

    /** Makes the set of subscribers match the registrations, which is what a start does. */
    method Reload(wanted: map<Id, Registration>) returns (stopped: set<Sub>, started: set<Sub>)
      requires Formed(View())
      modifies this`subs, this`info
      ensures Reloaded(old(View()), wanted, Moves(View(), stopped, started))
    {
      if closed {
        return {}, {};
      }
      var rest;
      stopped, rest := KeepWanted(wanted);
      ghost var kept, keptInfo := subs, info;
      started := StartRest(rest);
      SiftedAndBegun(old(View()), wanted, kept, keptInfo, stopped, rest, subs, info, started);
    }

    /** Every subscriber goes, and none comes after it. */
    method Close() returns (stopped: set<Sub>)
      modifies this`subs, this`closed
      ensures Moves(View(), stopped, {}) == Ended(old(View()))
    {
      if closed {
        return {};
      }
      closed := true;
      stopped := {};
      var ids := Enumerate(subs);
      for i := 0 to |ids|
        invariant stopped == set k | 0 <= k < i :: subs[ids[k]]
      {
        assert ids[i] in ids;
        stopped := stopped + {subs[ids[i]]};
      }
      assert stopped == Live(old(View())) by {
        assert forall k | 0 <= k < |ids| :: ids[k] in ids;
      }
      subs := map[];
    }
  }

  /** The first loop of a reload, once it has looked at the ids in seen. */
  ghost predicate Sifted(t: Table, wanted: map<Id, Registration>, seen: set<Id>, subs: map<Id, Sub>, info: seq<Info>,
      stopped: set<Sub>, rest: map<Id, Registration>)
  {
    && |info| == |t.info|
    && (forall n | 0 <= n < |info| :: info[n] == if t.info[n].id in seen then KeptOne(t, wanted, n) else t.info[n])
    && subs == (map id | id in t.subs && (id !in seen || Stays(t, wanted, id)) :: t.subs[id])
    && stopped == (set id | id in seen && id in t.subs && !Stays(t, wanted, id) :: t.subs[id])
    && rest == map id | id in wanted && !(id in seen && Stays(t, wanted, id)) :: wanted[id]
  }

  lemma NoneSifted(t: Table, wanted: map<Id, Registration>)
    ensures Sifted(t, wanted, {}, t.subs, t.info, {}, wanted)
  {
  }

  lemma SiftingOne(t: Table, wanted: map<Id, Registration>, seen: set<Id>, subs: map<Id, Sub>, info: seq<Info>,
      stopped: set<Sub>, rest: map<Id, Registration>, id: Id)
    requires Formed(t) && Sifted(t, wanted, seen, subs, info, stopped, rest) && id in t.subs && id !in seen
    ensures id in subs && subs[id] < |info| && info[subs[id]].want == t.info[t.subs[id]].want
    ensures var sub := subs[id];
      if Stays(t, wanted, id) then
        Sifted(t, wanted, seen + {id}, subs, info[sub := info[sub].(secret := wanted[id].secret)], stopped, rest - {id})
      else
        Sifted(t, wanted, seen + {id}, subs - {id}, info, stopped + {sub}, rest)
  {
    if Stays(t, wanted, id) {
      SiftingStays(t, wanted, seen, subs, info, stopped, rest, id);
    } else {
      SiftingGoes(t, wanted, seen, subs, info, stopped, rest, id);
    }
  }

  lemma SiftingStays(t: Table, wanted: map<Id, Registration>, seen: set<Id>, subs: map<Id, Sub>, info: seq<Info>,
      stopped: set<Sub>, rest: map<Id, Registration>, id: Id)
    requires Formed(t) && Sifted(t, wanted, seen, subs, info, stopped, rest) && id in t.subs && id !in seen
    requires Stays(t, wanted, id)
    ensures var sub := t.subs[id];
      Sifted(t, wanted, seen + {id}, subs, info[sub := info[sub].(secret := wanted[id].secret)], stopped, rest - {id})
  {
  }

  lemma SiftingGoes(t: Table, wanted: map<Id, Registration>, seen: set<Id>, subs: map<Id, Sub>, info: seq<Info>,
      stopped: set<Sub>, rest: map<Id, Registration>, id: Id)
    requires Formed(t) && Sifted(t, wanted, seen, subs, info, stopped, rest) && id in t.subs && id !in seen
    requires !Stays(t, wanted, id)
    ensures Sifted(t, wanted, seen + {id}, subs - {id}, info, stopped + {t.subs[id]}, rest)
  {
  }

  /** The second loop, once it has begun the subscribers of seen. */
  ghost predicate Begun(subs: map<Id, Sub>, info: seq<Info>, rest: map<Id, Registration>, seen: set<Id>,
      subs': map<Id, Sub>, info': seq<Info>, started: set<Sub>)
  {
    && |info| <= |info'| && info'[..|info|] == info
    && subs'.Keys == subs.Keys + seen && seen <= rest.Keys
    && (forall id <- subs :: subs'[id] == subs[id])
    && (forall id <- seen :: |info| <= subs'[id] < |info'|
         && info'[subs'[id]] == Info(id, rest[id].want, rest[id].secret))
    && (forall n: Sub | |info| <= n < |info'| :: info'[n].id in seen && subs'[info'[n].id] == n)
    && started == set id | id in seen :: subs'[id]
  }

  lemma BeginningOne(subs: map<Id, Sub>, info: seq<Info>, rest: map<Id, Registration>, seen: set<Id>,
      subs': map<Id, Sub>, info': seq<Info>, started: set<Sub>, id: Id)
    requires Begun(subs, info, rest, seen, subs', info', started) && id in rest && id !in seen && id !in subs
    ensures Begun(subs, info, rest, seen + {id}, subs'[id := |info'|],
      info' + [Info(id, rest[id].want, rest[id].secret)], started + {|info'|})
  {
  }

  /** What is begun is what was not kept, so the table is as formed as it was. */
  lemma BegunIsFormed(t: Table, wanted: map<Id, Registration>, kept: map<Id, Sub>, keptInfo: seq<Info>,
      stopped: set<Sub>, rest: map<Id, Registration>, subs: map<Id, Sub>, info: seq<Info>, started: set<Sub>)
    requires Formed(t) && Sifted(t, wanted, t.subs.Keys, kept, keptInfo, stopped, rest)
    requires Begun(kept, keptInfo, rest, rest.Keys, subs, info, started)
    ensures subs.Keys == wanted.Keys && Formed(Table(subs, false, info))
    ensures forall n: Sub | |t.info| <= n < |info| :: n in Live(Table(subs, false, info))
  {
    forall id <- wanted
      ensures id in subs && subs[id] < |info| && info[subs[id]].id == id
    {
      ReloadedOne(t, wanted, kept, keptInfo, stopped, rest, subs, info, started, id);
    }
    forall n: Sub | |t.info| <= n < |info|
      ensures n in Live(Table(subs, false, info))
    {
      assert info[n].id in subs;
    }
  }

  lemma BegunAreStarted(t: Table, wanted: map<Id, Registration>, kept: map<Id, Sub>, keptInfo: seq<Info>,
      stopped: set<Sub>, rest: map<Id, Registration>, subs: map<Id, Sub>, info: seq<Info>, started: set<Sub>)
    requires Formed(t) && Sifted(t, wanted, t.subs.Keys, kept, keptInfo, stopped, rest)
    requires Begun(kept, keptInfo, rest, rest.Keys, subs, info, started) && subs.Keys == wanted.Keys
    ensures started == set id | id in wanted && !Keeps(t, id, wanted[id].want) :: subs[id]
    ensures stopped == Unwanted(t, wanted)
  {
  }

  lemma SiftedAndBegun(t: Table, wanted: map<Id, Registration>, kept: map<Id, Sub>, keptInfo: seq<Info>,
      stopped: set<Sub>, rest: map<Id, Registration>, subs: map<Id, Sub>, info: seq<Info>, started: set<Sub>)
    requires Formed(t) && !t.closed && Sifted(t, wanted, t.subs.Keys, kept, keptInfo, stopped, rest)
    requires Begun(kept, keptInfo, rest, rest.Keys, subs, info, started)
    ensures Reloaded(t, wanted, Moves(Table(subs, false, info), stopped, started))
  {
    BegunIsFormed(t, wanted, kept, keptInfo, stopped, rest, subs, info, started);
    BegunAreStarted(t, wanted, kept, keptInfo, stopped, rest, subs, info, started);
    assert keptInfo == Kept(t, wanted);
    forall id <- wanted
      ensures info[subs[id]] == Info(id, wanted[id].want, wanted[id].secret)
      ensures if Keeps(t, id, wanted[id].want) then subs[id] == t.subs[id] else subs[id] >= |t.info|
    {
      ReloadedOne(t, wanted, kept, keptInfo, stopped, rest, subs, info, started, id);
    }
  }

  lemma ReloadedOne(t: Table, wanted: map<Id, Registration>, kept: map<Id, Sub>, keptInfo: seq<Info>, stopped: set<Sub>,
      rest: map<Id, Registration>, subs: map<Id, Sub>, info: seq<Info>, started: set<Sub>, id: Id)
    requires Formed(t) && Sifted(t, wanted, t.subs.Keys, kept, keptInfo, stopped, rest) && id in wanted
    requires Begun(kept, keptInfo, rest, rest.Keys, subs, info, started)
    ensures id in subs && subs[id] < |info| && info[subs[id]] == Info(id, wanted[id].want, wanted[id].secret)
    ensures if Keeps(t, id, wanted[id].want) then subs[id] == t.subs[id] else subs[id] >= |t.info|
  {
    if Stays(t, wanted, id) {
      assert kept[id] == t.subs[id];
      assert info[..|keptInfo|][subs[id]] == keptInfo[subs[id]];
    } else {
      assert id in rest;
    }
  }

  function Only(sub: Option<Sub>): set<Sub> {
    if sub == None then {} else {sub.value}
  }

  /**
   toStop and toStart are what calls that let go of the lock still owe. stops counts how often each
   stop channel was closed, and awaited are the workers a close waits for.
   */
  datatype State = State(
    table: Table, toStop: set<Sub>, toStart: set<Sub>, stops: map<Sub, nat>,
    running: set<Sub>, done: set<Sub>, awaited: set<Sub>)

  datatype Event =
    | Track(id: Id, r: Option<Registration>)
    | Untrack(id: Id)
    | Reload(wanted: map<Id, Registration>, moves: Moves)
    | Close
    | Stop(sub: Sub)
    | StartWorker(sub: Sub)
    | Leave(sub: Sub)
    | Waited(sub: Sub)

  const START := State(Table(map[], false, []), {}, {}, map[], {}, {}, {})

  function StopsOf(s: State, sub: Sub): nat {
    if sub in s.stops then s.stops[sub] else 0
  }

  /** A worker leaves once it is stopped; whatever it was posting is cancelled. */
  ghost predicate Enabled(s: State, e: Event) {
    match e
    case Track(_, _) => true
    case Untrack(_) => true
    case Reload(wanted, moves) => Reloaded(s.table, wanted, moves)
    case Close => true
    case Stop(sub) => sub in s.toStop
    case StartWorker(sub) => sub in s.toStart
    case Leave(sub) => sub in s.running && StopsOf(s, sub) > 0
    case Waited(sub) => sub in s.awaited && sub in s.done
  }

  function Owe(s: State, m: Moves): State {
    s.(table := m.table, toStop := s.toStop + m.stopped, toStart := s.toStart + m.started)
  }

  ghost function Apply(s: State, e: Event): State
    requires Enabled(s, e)
  {
    match e
    case Track(id, r) => Owe(s, Tracked(s.table, id, r))
    case Untrack(id) => Owe(s, Untracked(s.table, id))
    case Reload(_, moves) => Owe(s, moves)
    case Close => Owe(s, Ended(s.table)).(awaited := s.awaited + Ended(s.table).stopped)
    case Stop(sub) => s.(toStop := s.toStop - {sub}, stops := s.stops[sub := StopsOf(s, sub) + 1])
    case StartWorker(sub) => s.(toStart := s.toStart - {sub}, running := s.running + {sub})
    case Leave(sub) => s.(running := s.running - {sub}, done := s.done + {sub})
    case Waited(sub) => s.(awaited := s.awaited - {sub})
  }

  ghost function Run(es: seq<Event>): Option<State> {
    if es == [] then Some(START)
    else
      match Run(es[..|es| - 1])
      case None => None
      case Some(s) => if Enabled(s, es[|es| - 1]) then Some(Apply(s, es[|es| - 1])) else None
  }

  /** Every subscriber ever made is listed, owed its stop, or stopped, and only one of them. */
  ghost predicate OnePlace(s: State, sub: Sub) {
    var listed, owed := sub in Live(s.table), sub in s.toStop;
    if sub >= |s.table.info| then !listed && !owed && StopsOf(s, sub) == 0
    else StopsOf(s, sub) == (if listed || owed then 0 else 1) && !(listed && owed)
  }

  /** And it is owed its worker, or has one that runs, or one that left after it was stopped. */
  ghost predicate OneWorker(s: State, sub: Sub) {
    var owed, runs, left := sub in s.toStart, sub in s.running, sub in s.done;
    && (sub < |s.table.info| <==> owed || runs || left)
    && !(owed && runs) && !(owed && left) && !(runs && left)
    && (left ==> StopsOf(s, sub) == 1)
    && (sub in s.awaited ==> sub < |s.table.info| && sub !in Live(s.table))
  }

  ghost predicate Inv(s: State) {
    Formed(s.table) && forall sub: Sub :: OnePlace(s, sub) && OneWorker(s, sub)
  }

  /**
   What a call under the lock may do: nobody new is owed a stop that was not listed, and whoever is
   made is listed.
   */
  ghost predicate Lawful(t: Table, m: Moves) {
    && Formed(m.table) && |t.info| <= |m.table.info|
    && (forall sub: Sub | sub < |t.info| :: sub in Live(m.table) <==> sub in Live(t) && sub !in m.stopped)
    && m.stopped <= Live(t)
    && (forall sub: Sub :: sub in m.started <==> |t.info| <= sub < |m.table.info|)
    && (forall sub: Sub | |t.info| <= sub < |m.table.info| :: sub in Live(m.table))
  }

  lemma UntrackedIsLawful(t: Table, id: Id)
    requires Formed(t)
    ensures Lawful(t, Untracked(t, id))
  {
    var m := Untracked(t, id);
    forall sub: Sub | sub < |t.info|
      ensures sub in Live(m.table) <==> sub in Live(t) && sub !in m.stopped
    {
      if sub in Live(t) {
        var other :| other in t.subs && t.subs[other] == sub;
        assert other != id ==> other in m.table.subs;
      }
    }
  }

  lemma TrackedIsLawful(t: Table, id: Id, r: Option<Registration>)
    requires Formed(t)
    ensures Lawful(t, Tracked(t, id, r))
  {
    var m := Tracked(t, id, r);
    if r == None {
      UntrackedIsLawful(t, id);
    } else if t.closed {
    } else if Keeps(t, id, r.value.want) {
      assert m.table.subs == t.subs;
    } else {
      assert m.table.subs[id] == |t.info|;
      forall sub: Sub | sub < |t.info|
        ensures sub in Live(m.table) <==> sub in Live(t) && sub !in m.stopped
      {
        if sub in Live(t) {
          var other :| other in t.subs && t.subs[other] == sub;
          assert other != id ==> other in m.table.subs && m.table.subs[other] == sub;
        }
      }
    }
  }

  lemma EndedIsLawful(t: Table)
    requires Formed(t)
    ensures Lawful(t, Ended(t))
  {
  }

  lemma ReloadedIsLawful(t: Table, wanted: map<Id, Registration>, m: Moves)
    requires Formed(t) && Reloaded(t, wanted, m)
    ensures Lawful(t, m)
  {
    if !t.closed {
      forall sub: Sub | sub < |t.info|
        ensures sub in Live(m.table) <==> sub in Live(t) && sub !in m.stopped
      {
        if sub in Live(t) {
          var id :| id in t.subs && t.subs[id] == sub;
          if sub !in m.stopped {
            assert id in wanted && m.table.subs[id] == sub;
          }
        }
      }
      forall sub: Sub
        ensures sub in m.started <==> |t.info| <= sub < |m.table.info|
      {
        if |t.info| <= sub < |m.table.info| {
          assert sub in Live(m.table);
          var id :| id in m.table.subs && m.table.subs[id] == sub;
          assert id in wanted;
        }
      }
    }
  }

  lemma OwingKeepsInv(s: State, m: Moves)
    requires Inv(s) && Lawful(s.table, m)
    ensures Inv(Owe(s, m))
  {
    var s' := Owe(s, m);
    forall sub: Sub
      ensures OnePlace(s', sub) && OneWorker(s', sub)
    {
      assert OnePlace(s, sub) && OneWorker(s, sub);
    }
  }

  lemma CloseKeepsInv(s: State)
    requires Inv(s)
    ensures Inv(Apply(s, Close))
  {
    EndedIsLawful(s.table);
    OwingKeepsInv(s, Ended(s.table));
    var owed, s' := Owe(s, Ended(s.table)), Apply(s, Close);
    forall sub: Sub
      ensures OnePlace(s', sub) && OneWorker(s', sub)
    {
      assert OnePlace(s, sub) && OnePlace(owed, sub) && OneWorker(owed, sub);
    }
  }

  lemma DutyKeepsInv(s: State, e: Event)
    requires Inv(s) && Enabled(s, e) && (e.Stop? || e.StartWorker? || e.Leave? || e.Waited?)
    ensures Inv(Apply(s, e))
  {
    var s' := Apply(s, e);
    forall sub: Sub
      ensures OnePlace(s', sub) && OneWorker(s', sub)
    {
      assert OnePlace(s, sub) && OneWorker(s, sub);
    }
  }

  lemma StepKeepsInv(s: State, e: Event)
    requires Inv(s) && Enabled(s, e)
    ensures Inv(Apply(s, e))
  {
    match e {
      case Track(id, r) =>
        TrackedIsLawful(s.table, id, r);
        OwingKeepsInv(s, Tracked(s.table, id, r));
      case Untrack(id) =>
        UntrackedIsLawful(s.table, id);
        OwingKeepsInv(s, Untracked(s.table, id));
      case Reload(wanted, moves) =>
        ReloadedIsLawful(s.table, wanted, moves);
        OwingKeepsInv(s, moves);
      case Close => CloseKeepsInv(s);
      case _ => DutyKeepsInv(s, e);
    }
  }

  lemma {:induction false} RunKeepsInv(es: seq<Event>)
    requires Run(es).Some?
    ensures Inv(Run(es).value)
  {
    if es == [] {
      forall sub: Sub
        ensures OnePlace(START, sub) && OneWorker(START, sub)
      {
      }
    } else {
      RunKeepsInv(es[..|es| - 1]);
      StepKeepsInv(Run(es[..|es| - 1]).value, es[|es| - 1]);
    }
  }

  /** However calls interleave, a stop channel is closed once at most, and a subscriber has one worker. */
  lemma StoppedOnceWorkedOnce(es: seq<Event>, sub: Sub)
    requires Run(es).Some?
    ensures var s := Run(es).value;
      && StopsOf(s, sub) <= 1
      && (sub in s.toStop ==> StopsOf(s, sub) == 0 && sub !in Live(s.table))
      && (sub in s.toStart ==> sub !in s.running && sub !in s.done)
      && (sub in s.done ==> StopsOf(s, sub) == 1)
  {
    RunKeepsInv(es);
    assert OnePlace(Run(es).value, sub) && OneWorker(Run(es).value, sub);
  }

  /** A Process has one subscriber at most that is not stopped and not about to be, and it is the one listed. */
  lemma OneLivePerProcess(es: seq<Event>, sub: Sub)
    requires Run(es).Some? && sub < |Run(es).value.table.info|
    ensures var s := Run(es).value; var id := s.table.info[sub].id;
      StopsOf(s, sub) == 0 && sub !in s.toStop <==> id in s.table.subs && s.table.subs[id] == sub
  {
    RunKeepsInv(es);
    var s := Run(es).value;
    assert OnePlace(s, sub);
    if sub in Live(s.table) {
      var id :| id in s.table.subs && s.table.subs[id] == sub;
      assert s.table.info[sub].id == id;
    }
  }

  /**
   A Process that is unregistered, or registered again without a subscription, is out of the table and its
   subscriber owed its stop; nobody else moves, and no worker is made.
   */
  lemma UnregisteredIsStopped(es: seq<Event>, id: Id, e: Event)
    requires Run(es).Some? && (e == Untrack(id) || e == Track(id, None))
    ensures var s := Run(es).value; var s' := Apply(s, e);
      && s'.table.subs.Keys == s.table.subs.Keys - {id} && s'.toStart == s.toStart
      && (forall other <- s'.table.subs :: s'.table.subs[other] == s.table.subs[other])
      && s'.toStop == s.toStop + (if id in s.table.subs then {s.table.subs[id]} else {})
      && (id in s.table.subs ==> StopsOf(s, s.table.subs[id]) == 0 && s.table.subs[id] !in s.toStop)
  {
    RunKeepsInv(es);
    var s := Run(es).value;
    if id in s.table.subs {
      assert OnePlace(s, s.table.subs[id]);
    }
  }

  lemma ClosedStays(s: State, e: Event)
    requires s.table.closed && Enabled(s, e)
    ensures Apply(s, e).table.closed && |Apply(s, e).table.info| == |s.table.info|
  {
  }

  lemma {:induction false} ClosedStaysOn(es: seq<Event>, more: seq<Event>)
    requires Run(es).Some? && Run(es).value.table.closed && Run(es + more).Some?
    ensures var s, s' := Run(es).value, Run(es + more).value;
      s'.table.closed && |s'.table.info| == |s.table.info|
    decreases |more|
  {
    if more == [] {
      assert es + more == es;
    } else {
      ConcatDropLast(es, more);
      ClosedStaysOn(es, more[..|more| - 1]);
      ClosedStays(Run(es + more[..|more| - 1]).value, more[|more| - 1]);
    }
  }

  /**
   Once the fan out is closed it is closed for good: whatever is called after it nothing is listed and
   nobody is made, and every subscriber is stopped or about to be.
   */
  lemma ClosedForGood(es: seq<Event>, more: seq<Event>, sub: Sub)
    requires Run(es).Some? && Run(es).value.table.closed && Run(es + more).Some?
    requires sub < |Run(es + more).value.table.info|
    ensures var s, s' := Run(es).value, Run(es + more).value;
      && s'.table.closed && s'.table.subs == map[] && |s'.table.info| == |s.table.info|
      && (StopsOf(s', sub) == 1 || sub in s'.toStop)
  {
    ClosedStaysOn(es, more);
    RunKeepsInv(es + more);
    assert OnePlace(Run(es + more).value, sub);
  }

  /** What is left to do for a subscriber that is listed no more. */
  function Left(s: State, sub: Sub): nat {
    (if sub in s.awaited then 1 else 0) + (if sub in s.toStop then 1 else 0)
    + (if sub in s.toStart then 2 else 0) + if sub in s.running then 1 else 0
  }

  /** A step of its worker, of the call that owes it one, or of the close that waits for it. */
  predicate Own(e: Event, sub: Sub) {
    e == Stop(sub) || e == StartWorker(sub) || e == Leave(sub) || e == Waited(sub)
  }

  function OwnSteps(es: seq<Event>, sub: Sub): nat {
    if es == [] then 0 else OwnSteps(es[..|es| - 1], sub) + if Own(es[|es| - 1], sub) then 1 else 0
  }

  ghost predicate Unlisted(s: State, sub: Sub) {
    sub < |s.table.info| && sub !in Live(s.table)
  }

  lemma LawfulLeaves(s: State, e: Event, m: Moves, sub: Sub)
    requires Inv(s) && Enabled(s, e) && Unlisted(s, sub) && Lawful(s.table, m)
    requires Apply(s, e) == Owe(s, m).(awaited := Apply(s, e).awaited)
    requires Apply(s, e).awaited <= s.awaited + Live(s.table) && s.awaited <= Apply(s, e).awaited
    ensures Unlisted(Apply(s, e), sub) && Left(Apply(s, e), sub) == Left(s, sub)
  {
  }

  /** Its own steps alone bring it nearer to being done with, and each does. */
  lemma StepLeaves(s: State, e: Event, sub: Sub)
    requires Inv(s) && Enabled(s, e) && Unlisted(s, sub)
    ensures Unlisted(Apply(s, e), sub)
    ensures Left(Apply(s, e), sub) + (if Own(e, sub) then 1 else 0) == Left(s, sub)
  {
    match e {
      case Track(id, r) =>
        TrackedIsLawful(s.table, id, r);
        LawfulLeaves(s, e, Tracked(s.table, id, r), sub);
      case Untrack(id) =>
        UntrackedIsLawful(s.table, id);
        LawfulLeaves(s, e, Untracked(s.table, id), sub);
      case Reload(wanted, moves) =>
        ReloadedIsLawful(s.table, wanted, moves);
        LawfulLeaves(s, e, moves, sub);
      case Close =>
        EndedIsLawful(s.table);
        LawfulLeaves(s, e, Ended(s.table), sub);
      case _ => assert OneWorker(s, sub) && OnePlace(s, sub);
    }
  }

  lemma {:induction false} LeftIsSpent(es: seq<Event>, more: seq<Event>, sub: Sub)
    requires Run(es).Some? && Unlisted(Run(es).value, sub) && Run(es + more).Some?
    ensures Unlisted(Run(es + more).value, sub)
    ensures Left(Run(es + more).value, sub) + OwnSteps(more, sub) == Left(Run(es).value, sub)
    decreases |more|
  {
    if more == [] {
      assert es + more == es;
    } else {
      var init := more[..|more| - 1];
      ConcatDropLast(es, more);
      LeftIsSpent(es, init, sub);
      RunKeepsInv(es + init);
      StepLeaves(Run(es + init).value, more[|more| - 1], sub);
    }
  }

  /** While a close waits for a worker, a step of it, or of the call that owes it one, is there to take. */
  lemma CloseCanGoOn(es: seq<Event>, sub: Sub)
    requires Run(es).Some? && sub in Run(es).value.awaited
    ensures exists e :: Own(e, sub) && Enabled(Run(es).value, e)
  {
    RunKeepsInv(es);
    var s := Run(es).value;
    assert OnePlace(s, sub) && OneWorker(s, sub);
    var e := if sub in s.toStop then Stop(sub) else if sub in s.toStart then StartWorker(sub)
      else if sub in s.running then Leave(sub) else Waited(sub);
    assert Own(e, sub) && Enabled(s, e);
  }

  /**
   A close returns: of the steps for a worker it waits for, one is always there to take, and however
   many other calls come between, it waits for it no longer than four of them.
   */
  lemma CloseReturns(es: seq<Event>, more: seq<Event>, sub: Sub)
    requires Run(es).Some? && sub in Run(es).value.awaited && Run(es + more).Some?
    ensures OwnSteps(more, sub) <= 4
    ensures sub in Run(es + more).value.awaited ==>
      OwnSteps(more, sub) < 4 && exists e :: Own(e, sub) && Enabled(Run(es + more).value, e)
  {
    RunKeepsInv(es);
    assert OneWorker(Run(es).value, sub);
    LeftIsSpent(es, more, sub);
    if sub in Run(es + more).value.awaited {
      CloseCanGoOn(es + more, sub);
    }
  }

  /** A registration at the same endpoint keeps its queue and its worker; any other begins with a new queue. */
  lemma QueueBelongsToItsEndpoint(t: Table, id: Id, r: Registration)
    requires Formed(t) && !t.closed
    ensures var m := Tracked(t, id, Some(r));
      && Formed(m.table) && id in m.table.subs && m.table.info[m.table.subs[id]] == Info(id, r.want, r.secret)
      && (m.table.subs[id] < |t.info| <==> id in t.subs && t.info[t.subs[id]].want == r.want)
      && (m.table.subs[id] < |t.info| ==> m.table.subs == t.subs && m.stopped == {} && m.started == {})
      && forall other <- t.subs | other != id :: other in m.table.subs && m.table.subs[other] == t.subs[other]
  {
    TrackedIsLawful(t, id, Some(r));
  }
}
