/** The proxy's accept loop: so many connections in all, and so many from one address. */
module ConnectionBudget {
  import opened Collections

  type Address = string

  function HeldOf(held: map<Address, int>, key: Address): int {
    if key in held then held[key] else 0
  }

  predicate Counted(limit: int, key: Address) {
    limit > 0 && key != ""
  }

  predicate Grants(limit: int, held: map<Address, int>, key: Address) {
    !Counted(limit, key) || HeldOf(held, key) < limit
  }

  function Took(limit: int, held: map<Address, int>, key: Address): map<Address, int> {
    if Counted(limit, key) then held[key := HeldOf(held, key) + 1] else held
  }

  function GaveBack(limit: int, held: map<Address, int>, key: Address): map<Address, int> {
    if !Counted(limit, key) then held
    else if HeldOf(held, key) <= 1 then held - {key}
    else held[key := HeldOf(held, key) - 1]
  }

  class AddressCounter {
    const limit: int
    var held: map<Address, int>

    constructor (limit: int)
      ensures this.limit == limit && held == map[]
    {
      this.limit, held := limit, map[];
    }

    method Take(key: Address) returns (ok: bool)
      modifies this
      ensures ok == Grants(limit, old(held), key)
      ensures held == if ok then Took(limit, old(held), key) else old(held)
    {
      if limit <= 0 || key == "" {
        return true;
      }
      var n := if key in held then held[key] else 0;
      if n >= limit {
        return false;
      }
      held := held[key := n + 1];
      ok := true;
    }

    method Release(key: Address)
      modifies this
      ensures held == GaveBack(limit, old(held), key)
    {
      if limit <= 0 || key == "" {
        return;
      }
      var n := if key in held then held[key] else 0;
      if n <= 1 {
        held := held - {key};
        return;
      }
      held := held[key := n - 1];
    }
  }

  /** What the listener under this one hands over: a connection from somewhere, or an error. */
  datatype Arrival = From(key: Address) | Broken

  class ProxyListener {
    const total: nat
    var slots: nat
    const peers: AddressCounter

    constructor (total: nat, perAddress: int)
      ensures this.total == total && slots == total
      ensures fresh(peers) && peers.limit == perAddress && peers.held == map[]
    {
      this.total, slots := total, total;
      peers := new AddressCounter(perAddress);
    }

    /**
     Accept over what arrives while it runs, with a slot to begin with. It answers the first connection
     whose address is under its cap, having turned away every one before it, or the first error; with
     neither it is still waiting, and holds a slot.
     */
    method Accept(arrivals: seq<Arrival>) returns (seen: nat, conn: Option<CountedConn>, failed: bool)
      requires slots > 0
      modifies this`slots, peers
      ensures seen <= |arrivals|
      ensures conn == None && !failed ==> seen == |arrivals| && slots == old(slots) - 1
      ensures failed ==> seen > 0 && arrivals[seen - 1].Broken? && conn == None && slots == old(slots)
      ensures conn != None ==>
        && seen > 0 && arrivals[seen - 1].From? && Grants(peers.limit, old(peers.held), arrivals[seen - 1].key)
        && fresh(conn.value) && !conn.value.closed && conn.value.listener == this
        && conn.value.key == arrivals[seen - 1].key
        && slots == old(slots) - 1 && peers.held == Took(peers.limit, old(peers.held), arrivals[seen - 1].key)
      ensures conn == None ==> peers.held == old(peers.held)
      ensures forall k | 0 <= k < seen - (if conn != None || failed then 1 else 0) ::
        arrivals[k].From? && !Grants(peers.limit, old(peers.held), arrivals[k].key)
    {
      seen, conn, failed := 0, None, false;
      while seen < |arrivals|
        invariant seen <= |arrivals| && slots == old(slots) && peers.held == old(peers.held)
        invariant forall k | 0 <= k < seen ::
          arrivals[k].From? && !Grants(peers.limit, old(peers.held), arrivals[k].key)
      {
        slots := slots - 1;
        var arrival := arrivals[seen];
        seen := seen + 1;
        if arrival.Broken? {
          slots := slots + 1;
          failed := true;
          return;
        }
        var ok := peers.Take(arrival.key);
        if !ok {
          // Turned away: the connection takes no slot with it.
          slots := slots + 1;
          continue;
        }
        var accepted := new CountedConn(this, arrival.key);
        conn := Some(accepted);
        return;
      }
      slots := slots - 1;
    }
  }

  class CountedConn {
    const listener: ProxyListener
    const key: Address
    var closed: bool

    constructor (listener: ProxyListener, key: Address)
      ensures this.listener == listener && this.key == key && !closed
    {
      this.listener, this.key, closed := listener, key, false;
    }

    /** Gives the slot and the client's place back the first time, and nothing after that. */
    method Close()
      modifies this, listener`slots, listener.peers
      ensures closed
      ensures listener.slots == old(listener.slots) + if old(closed) then 0 else 1
      ensures listener.peers.held ==
        if old(closed) then old(listener.peers.held) else GaveBack(listener.peers.limit, old(listener.peers.held), key)
    {
      if !closed {
        closed := true;
        listener.peers.Release(key);
        listener.slots := listener.slots + 1;
      }
    }
  }

  type Thread = nat
  type Conn = nat

  /** A connection that is being closed has given its place back and not yet its slot. */
  datatype Phase = Open | Closing | Closed

  datatype Connection = Connection(key: Address, phase: Phase)

  /** waiting are the accepts that hold a slot, and refused those that hold one and a connection turned away. */
  datatype State = State(
    free: int, held: map<Address, int>, waiting: set<Thread>, refused: set<Thread>, conns: map<Conn, Connection>)

  datatype Event =
    | TakeSlot(t: Thread)
    | Fail(t: Thread)
    | Arrive(t: Thread, key: Address, conn: Conn)
    | TurnAway(t: Thread)
    | Close(conn: Conn)
    | FreeSlot(conn: Conn)

  function Start(total: nat): State {
    State(total, map[], {}, {}, map[])
  }

  predicate Enabled(s: State, e: Event) {
    match e
    case TakeSlot(t) => t !in s.waiting && t !in s.refused && s.free > 0
    case Fail(t) => t in s.waiting
    case Arrive(t, _, conn) => t in s.waiting && conn !in s.conns
    case TurnAway(t) => t in s.refused
    case Close(conn) => conn in s.conns
    case FreeSlot(conn) => conn in s.conns && s.conns[conn].phase.Closing?
  }

  function Apply(limit: int, s: State, e: Event): State
    requires Enabled(s, e)
  {
    match e
    case TakeSlot(t) => s.(free := s.free - 1, waiting := s.waiting + {t})
    case Fail(t) => s.(free := s.free + 1, waiting := s.waiting - {t})
    case Arrive(t, key, conn) =>
      if Grants(limit, s.held, key) then
        s.(held := Took(limit, s.held, key), waiting := s.waiting - {t},
          conns := s.conns[conn := Connection(key, Open)])
      else s.(waiting := s.waiting - {t}, refused := s.refused + {t})
    case TurnAway(t) => s.(free := s.free + 1, refused := s.refused - {t})
    case Close(conn) =>
      if s.conns[conn].phase.Open? then
        s.(held := GaveBack(limit, s.held, s.conns[conn].key),
          conns := s.conns[conn := s.conns[conn].(phase := Closing)])
      else s
    case FreeSlot(conn) => s.(free := s.free + 1, conns := s.conns[conn := s.conns[conn].(phase := Closed)])
  }

  function Run(total: nat, limit: int, es: seq<Event>): Option<State> {
    if es == [] then Some(Start(total))
    else
      match Run(total, limit, es[..|es| - 1])
      case None => None
      case Some(s) => if Enabled(s, es[|es| - 1]) then Some(Apply(limit, s, es[|es| - 1])) else None
  }

  /** The connections that still hold a slot. */
  function Holding(conns: map<Conn, Connection>): set<Conn> {
    set c | c in conns && !conns[c].phase.Closed?
  }

  function OpenFrom(conns: map<Conn, Connection>, key: Address): set<Conn> {
    set c | c in conns && conns[c].phase.Open? && conns[c].key == key
  }

  ghost predicate SlotsConserved(total: nat, s: State) {
    && s.waiting !! s.refused && s.free >= 0
    && s.free + |s.waiting| + |s.refused| + |Holding(s.conns)| == total
  }

  lemma ArriveHolds(conns: map<Conn, Connection>, conns': map<Conn, Connection>, conn: Conn)
    requires conn !in conns && conn in conns' && conns' == conns[conn := conns'[conn]] && conns'[conn].phase.Open?
    ensures Holding(conns') == Holding(conns) + {conn} && |Holding(conns')| == |Holding(conns)| + 1
  {
  }

  lemma ArriveKeepsSlots(total: nat, limit: int, s: State, t: Thread, key: Address, conn: Conn)
    requires SlotsConserved(total, s) && Enabled(s, Arrive(t, key, conn))
    ensures SlotsConserved(total, Apply(limit, s, Arrive(t, key, conn)))
  {
    var s' := Apply(limit, s, Arrive(t, key, conn));
    if Grants(limit, s.held, key) {
      ArriveHolds(s.conns, s'.conns, conn);
    }
  }

  lemma FreeKeepsSlots(total: nat, limit: int, s: State, conn: Conn)
    requires SlotsConserved(total, s) && Enabled(s, FreeSlot(conn))
    ensures SlotsConserved(total, Apply(limit, s, FreeSlot(conn)))
  {
    var s' := Apply(limit, s, FreeSlot(conn));
    assert conn in Holding(s.conns);
    assert Holding(s'.conns) == Holding(s.conns) - {conn};
  }

  /** Taking a slot, or giving one back without a connection. */
  lemma AcceptKeepsSlots(total: nat, limit: int, s: State, e: Event)
    requires SlotsConserved(total, s) && Enabled(s, e) && (e.TakeSlot? || e.Fail? || e.TurnAway?)
    ensures SlotsConserved(total, Apply(limit, s, e))
  {
    var s' := Apply(limit, s, e);
    assert s'.conns == s.conns;
    if e.TakeSlot? {
      assert |s.waiting + {e.t}| == |s.waiting| + 1;
    } else if e.Fail? {
      assert |s.waiting - {e.t}| == |s.waiting| - 1;
    } else {
      assert |s.refused - {e.t}| == |s.refused| - 1;
    }
  }

  lemma CloseKeepsSlots(total: nat, limit: int, s: State, conn: Conn)
    requires SlotsConserved(total, s) && Enabled(s, Close(conn))
    ensures SlotsConserved(total, Apply(limit, s, Close(conn)))
  {
    assert Holding(Apply(limit, s, Close(conn)).conns) == Holding(s.conns);
  }

  lemma StepKeepsSlots(total: nat, limit: int, s: State, e: Event)
    requires SlotsConserved(total, s) && Enabled(s, e)
    ensures SlotsConserved(total, Apply(limit, s, e))
  {
    match e
    case Arrive(t, key, conn) => ArriveKeepsSlots(total, limit, s, t, key, conn);
    case Close(conn) => CloseKeepsSlots(total, limit, s, conn);
    case FreeSlot(conn) => FreeKeepsSlots(total, limit, s, conn);
    case _ => AcceptKeepsSlots(total, limit, s, e);
  }

  ghost predicate PlaceExact(limit: int, s: State, key: Address) {
    && (Counted(limit, key) ==> HeldOf(s.held, key) == |OpenFrom(s.conns, key)| <= limit)
    && (key in s.held ==> s.held[key] > 0 && Counted(limit, key))
  }

  /** A connection that is new is one more from its own address, and from no other. */
  lemma ArriveOpens(conns: map<Conn, Connection>, conns': map<Conn, Connection>, from: Address, conn: Conn,
      key: Address)
    requires conn !in conns && conn in conns' && conns' == conns[conn := conns'[conn]]
    requires conns'[conn].key == from && conns'[conn].phase.Open?
    ensures OpenFrom(conns', key) == OpenFrom(conns, key) + if from == key then {conn} else {}
    ensures |OpenFrom(conns', key)| == |OpenFrom(conns, key)| + if from == key then 1 else 0
  {
  }

  lemma ArriveKeepsPlace(limit: int, s: State, t: Thread, from: Address, conn: Conn, key: Address)
    requires PlaceExact(limit, s, key) && Enabled(s, Arrive(t, from, conn))
    ensures PlaceExact(limit, Apply(limit, s, Arrive(t, from, conn)), key)
  {
    var s' := Apply(limit, s, Arrive(t, from, conn));
    if Grants(limit, s.held, from) {
      ArriveOpens(s.conns, s'.conns, from, conn, key);
    }
  }

  lemma CloseKeepsPlace(limit: int, s: State, conn: Conn, key: Address)
    requires PlaceExact(limit, s, key) && Enabled(s, Close(conn))
    ensures PlaceExact(limit, Apply(limit, s, Close(conn)), key)
  {
    var s' := Apply(limit, s, Close(conn));
    if s.conns[conn].phase.Open? {
      if s.conns[conn].key == key {
        assert conn in OpenFrom(s.conns, key);
        assert OpenFrom(s'.conns, key) == OpenFrom(s.conns, key) - {conn};
      } else {
        assert OpenFrom(s'.conns, key) == OpenFrom(s.conns, key);
      }
    }
  }

  lemma StepKeepsPlace(limit: int, s: State, e: Event, key: Address)
    requires PlaceExact(limit, s, key) && Enabled(s, e)
    ensures PlaceExact(limit, Apply(limit, s, e), key)
  {
    match e
    case TakeSlot(t) =>
    case Fail(t) =>
    case Arrive(t, from, conn) => ArriveKeepsPlace(limit, s, t, from, conn, key);
    case TurnAway(t) =>
    case Close(conn) => CloseKeepsPlace(limit, s, conn, key);
    case FreeSlot(conn) => assert OpenFrom(Apply(limit, s, e).conns, key) == OpenFrom(s.conns, key);
  }

  lemma {:induction false} RunKeeps(total: nat, limit: int, es: seq<Event>, key: Address)
    requires Run(total, limit, es).Some?
    ensures SlotsConserved(total, Run(total, limit, es).value) && PlaceExact(limit, Run(total, limit, es).value, key)
  {
    if es != [] {
      var init, e := es[..|es| - 1], es[|es| - 1];
      RunKeeps(total, limit, init, key);
      StepKeepsSlots(total, limit, Run(total, limit, init).value, e);
      StepKeepsPlace(limit, Run(total, limit, init).value, e, key);
    }
  }

  /**
   Every slot is free, with an accept, or with a connection, and an address holds what it has open,
   within its cap.
   */
  lemma NothingIsLost(total: nat, limit: int, es: seq<Event>, key: Address)
    requires Run(total, limit, es).Some?
    ensures var s := Run(total, limit, es).value;
      && s.free + |s.waiting| + |s.refused| + |Holding(s.conns)| == total
      && (Counted(limit, key) ==> HeldOf(s.held, key) == |OpenFrom(s.conns, key)| <= limit)
      && (key in s.held <==> Counted(limit, key) && OpenFrom(s.conns, key) != {})
  {
    RunKeeps(total, limit, es, key);
  }

  /** A connection is turned away exactly where its address is counted and has as many open as it may have. */
  lemma TurnedAwayExactlyAtTheCap(total: nat, limit: int, es: seq<Event>, t: Thread, from: Address, conn: Conn)
    requires Run(total, limit, es).Some? && Enabled(Run(total, limit, es).value, Arrive(t, from, conn))
    ensures var s := Run(total, limit, es).value; var s' := Apply(limit, s, Arrive(t, from, conn));
      if limit > 0 && from != "" && |OpenFrom(s.conns, from)| == limit then
        s' == s.(waiting := s.waiting - {t}, refused := s.refused + {t})
      else
        conn in s'.conns && s'.conns[conn] == Connection(from, Open) && t !in s'.refused
  {
    RunKeeps(total, limit, es, from);
  }

  /** Giving a slot back never waits: there is room for it in a channel of total. */
  lemma GivingBackNeverBlocks(total: nat, limit: int, es: seq<Event>, e: Event)
    requires Run(total, limit, es).Some? && Enabled(Run(total, limit, es).value, e)
    requires e.Fail? || e.TurnAway? || e.FreeSlot?
    ensures Run(total, limit, es).value.free < total
  {
    RunKeeps(total, limit, es, "");
    var s := Run(total, limit, es).value;
    match e
    case Fail(t) => assert s.waiting == {t} + (s.waiting - {t});
    case TurnAway(t) => assert s.refused == {t} + (s.refused - {t});
    case FreeSlot(conn) => assert Holding(s.conns) == {conn} + (Holding(s.conns) - {conn});
  }
}
