/**
 The same queue with every atomic step taken apart: k producers inside enqueue and one worker,
 interleaved at each load, send, receive and add. A run is any list of enabled events.
 */
module FanoutConcurrent {
  import opened Collections
  import opened FanoutQueue

  /** Where one producer stands in enqueue, named by the atomic step it takes next. */
  datatype Producer =
    | Idle
    | Checking(d: Delivery)
    | Sending(d: Delivery)
    | Adding(d: Delivery)
    | Evicting(d: Delivery)
    | Subtracting(d: Delivery, old_: Delivery)
    | Counting(d: Delivery)
    | Rechecking(d: Delivery)
    | Refusing(d: Delivery)

  datatype Worker = Waiting | Releasing(d: Delivery) | Posting

  /** queue, held and dropped are the subscriber's. The four histories only record. */
  datatype State = State(
    queue: seq<Delivery>, held: int, dropped: int, producers: seq<Producer>, worker: Worker,
    offered: seq<Delivery>, sent: seq<Delivery>, taken: seq<Delivery>, delivered: seq<Delivery>)

  datatype Event = Offers(i: nat, d: Delivery) | Moves(i: nat) | Receives | Releases | Posted

  function Start(k: nat): State {
    State([], 0, 0, seq(k, _ => Idle), Waiting, [], [], [], [])
  }

  predicate Room(s: State, d: Delivery) {
    s.held + d.Size() <= QUEUE_BYTES
  }

  /** One atomic step of the producer at i. */
  function Move(s: State, i: nat): State
    requires i < |s.producers| && !s.producers[i].Idle?
  {
    match s.producers[i]
    case Checking(d) =>
      At(s, i, if Room(s, d) then Sending(d) else Evicting(d))
    case Sending(d) =>
      if |s.queue| < QUEUE_DEPTH
      then At(s, i, Adding(d)).(queue := s.queue + [d], sent := s.sent + [d])
      else At(s, i, Evicting(d))
    case Adding(d) =>
      At(s, i, Idle).(held := s.held + d.Size())
    case Evicting(d) =>
      if s.queue == [] then At(s, i, Rechecking(d))
      else At(s, i, Subtracting(d, s.queue[0])).(queue := s.queue[1..], taken := s.taken + [s.queue[0]])
    case Subtracting(d, old_) =>
      At(s, i, Counting(d)).(held := s.held - old_.Size())
    case Counting(d) =>
      At(s, i, Checking(d)).(dropped := s.dropped + 1)
    case Rechecking(d) =>
      At(s, i, if Room(s, d) then Checking(d) else Refusing(d))
    case Refusing(d) =>
      At(s, i, Idle).(dropped := s.dropped + 1)
  }

  function At(s: State, i: nat, p: Producer): State
    requires i < |s.producers|
  {
    s.(producers := s.producers[i := p])
  }

  predicate Enabled(s: State, e: Event, m: nat) {
    match e
    case Offers(i, d) => i < |s.producers| && s.producers[i].Idle? && d.Size() <= m
    case Moves(i) => i < |s.producers| && !s.producers[i].Idle?
    case Receives => s.worker.Waiting? && s.queue != []
    case Releases => s.worker.Releasing?
    case Posted => s.worker.Posting?
  }

  function Apply(s: State, e: Event, m: nat): State
    requires Enabled(s, e, m)
  {
    match e
    case Offers(i, d) => At(s, i, Checking(d)).(offered := s.offered + [d])
    case Moves(i) => Move(s, i)
    case Receives =>
      s.(queue := s.queue[1..], worker := Releasing(s.queue[0]),
         taken := s.taken + [s.queue[0]], delivered := s.delivered + [s.queue[0]])
    case Releases => s.(held := s.held - s.worker.d.Size(), worker := Posting)
    case Posted => s.(worker := Waiting)
  }

  /** The state after a run, or None for a list that is not a run. */
  function Run(k: nat, m: nat, es: seq<Event>): Option<State> {
    if es == [] then Some(Start(k))
    else
      match Run(k, m, es[..|es| - 1])
      case None => None
      case Some(s) => if Enabled(s, es[|es| - 1], m) then Some(Apply(s, es[|es| - 1], m)) else None
  }

  // What one producer stands for in the accounting.

  function SentNotAdded(p: Producer): int {
    if p.Adding? then p.d.Size() else 0
  }

  function TakenNotReleased(p: Producer): int {
    if p.Subtracting? then p.old_.Size() else 0
  }

  function Cleared(p: Producer): int {
    if p.Sending? then p.d.Size() else 0
  }

  function Committed(p: Producer): int {
    SentNotAdded(p) + Cleared(p)
  }

  /** Requests in this producer's hands: its own, and one it evicted and has not counted. */
  function InHand(p: Producer): int {
    match p
    case Idle | Adding(_) => 0
    case Subtracting(_, _) | Counting(_) => 2
    case _ => 1
  }

  function WorkerHolds(w: Worker): int {
    if w.Releasing? then w.d.Size() else 0
  }

  function Unsent(p: Producer): seq<Delivery> {
    if p.Idle? || p.Adding? then [] else [p.d]
  }

  /** held is exact once the steps in progress are accounted for. */
  ghost predicate HeldExact(s: State) {
    s.held == Bytes(s.queue) - SumOf(s.producers, SentNotAdded)
              + SumOf(s.producers, TakenNotReleased) + WorkerHolds(s.worker)
  }

  /** What is queued, with what has passed the check and not been sent. */
  ghost predicate Bounded(s: State, k: nat, m: nat) {
    && |s.queue| <= QUEUE_DEPTH
    && Bytes(s.queue) + SumOf(s.producers, Cleared) <= if k == 0 then 0 else QUEUE_BYTES + (k - 1) * m
  }

  ghost predicate Ordered(s: State, k: nat) {
    && |s.producers| == k
    && s.sent == s.taken + s.queue
    && Subsequence(s.delivered, s.taken)
    && (k == 1 ==> Subsequence(s.sent + Unsent(s.producers[0]), s.offered))
  }

  ghost predicate Conserved(s: State) {
    |s.offered| == |s.delivered| + |s.queue| + s.dropped + SumOf(s.producers, InHand)
  }

  predicate Small(p: Producer, m: nat) {
    p.Idle? || p.d.Size() <= m
  }

  ghost predicate Inv(s: State, k: nat, m: nat) {
    && |s.producers| == k
    && (forall p <- s.producers :: Small(p, m))
    && HeldExact(s)
    && Bounded(s, k, m)
    && Ordered(s, k)
    && Conserved(s)
  }

  /** The sums after the producer at i becomes p. */
  lemma SumsMove(s: State, i: nat, p: Producer)
    requires i < |s.producers|
    ensures SumOf(s.producers[i := p], SentNotAdded) ==
      SumOf(s.producers, SentNotAdded) - SentNotAdded(s.producers[i]) + SentNotAdded(p)
    ensures SumOf(s.producers[i := p], TakenNotReleased) ==
      SumOf(s.producers, TakenNotReleased) - TakenNotReleased(s.producers[i]) + TakenNotReleased(p)
    ensures SumOf(s.producers[i := p], Cleared) == SumOf(s.producers, Cleared) - Cleared(s.producers[i]) + Cleared(p)
    ensures SumOf(s.producers[i := p], InHand) == SumOf(s.producers, InHand) - InHand(s.producers[i]) + InHand(p)
  {
    SumOfUpdate(s.producers, i, p, SentNotAdded);
    SumOfUpdate(s.producers, i, p, TakenNotReleased);
    SumOfUpdate(s.producers, i, p, Cleared);
    SumOfUpdate(s.producers, i, p, InHand);
  }

  lemma {:induction false} CommittedSplits(ps: seq<Producer>)
    ensures SumOf(ps, Committed) == SumOf(ps, SentNotAdded) + SumOf(ps, Cleared)
  {
    if ps != [] {
      CommittedSplits(ps[..|ps| - 1]);
    }
  }

  /** Passing the check is where the concurrent bound comes from: only the others can be committed. */
  lemma PassingTheCheckStaysBounded(s: State, i: nat, k: nat, m: nat)
    requires Inv(s, k, m) && i < k && s.producers[i].Checking? && Room(s, s.producers[i].d)
    ensures Bytes(s.queue) + SumOf(s.producers, Cleared) + s.producers[i].d.Size() <= QUEUE_BYTES + (k - 1) * m
  {
    forall p <- s.producers ensures 0 <= Committed(p) <= m {
      assert Small(p, m);
    }
    SumOfBoundExcept(s.producers, i, Committed, m);
    CommittedSplits(s.producers);
    TakenIsNonNegative(s.producers);
  }

  lemma {:induction false} TakenIsNonNegative(ps: seq<Producer>)
    ensures 0 <= SumOf(ps, TakenNotReleased)
  {
    if ps != [] {
      TakenIsNonNegative(ps[..|ps| - 1]);
    }
  }

  lemma MoveReplaces(s: State, i: nat)
    requires i < |s.producers| && !s.producers[i].Idle?
    ensures var t := Move(s, i);
      |t.producers| == |s.producers| && t.producers == s.producers[i := t.producers[i]] && t.worker == s.worker
  {
  }

  lemma MoveKeepsHeld(s: State, i: nat, k: nat, m: nat)
    requires Inv(s, k, m) && i < k && !s.producers[i].Idle?
    ensures HeldExact(Move(s, i))
  {
    MoveReplaces(s, i);
    SumsMove(s, i, Move(s, i).producers[i]);
    match s.producers[i] {
      case Sending(d) =>
        BytesConcat(s.queue, [d]);
        BytesOne(d);
      case Evicting(d) =>
        if s.queue != [] { BytesHead(s.queue); }
      case _ =>
    }
  }

  lemma MoveKeepsBound(s: State, i: nat, k: nat, m: nat)
    requires Inv(s, k, m) && i < k && !s.producers[i].Idle?
    ensures Bounded(Move(s, i), k, m)
  {
    MoveReplaces(s, i);
    SumsMove(s, i, Move(s, i).producers[i]);
    match s.producers[i] {
      case Checking(d) =>
        if Room(s, d) { PassingTheCheckStaysBounded(s, i, k, m); }
      case Sending(d) =>
        BytesConcat(s.queue, [d]);
        BytesOne(d);
      case Evicting(d) =>
        if s.queue != [] { BytesHead(s.queue); }
      case _ =>
    }
  }

  lemma MoveKeepsCounts(s: State, i: nat, k: nat, m: nat)
    requires Inv(s, k, m) && i < k && !s.producers[i].Idle?
    ensures Conserved(Move(s, i))
  {
    MoveReplaces(s, i);
    SumsMove(s, i, Move(s, i).producers[i]);
    match s.producers[i] {
      case Sending(_) =>
      case Evicting(_) =>
      case _ =>
    }
  }

  lemma MoveKeepsSmall(s: State, i: nat, k: nat, m: nat)
    requires Inv(s, k, m) && i < k && !s.producers[i].Idle?
    ensures forall p <- Move(s, i).producers :: Small(p, m)
  {
    MoveReplaces(s, i);
    assert Small(s.producers[i], m) && Small(Move(s, i).producers[i], m);
    forall j | 0 <= j < k
      ensures Small(Move(s, i).producers[j], m)
    {
      assert Small(s.producers[j], m);
    }
  }

  lemma TakingTheHead(s: State)
    requires s.queue != [] && s.sent == s.taken + s.queue
    ensures s.sent == (s.taken + [s.queue[0]]) + s.queue[1..]
  {
  }

  lemma MoveKeepsOrder(s: State, i: nat, k: nat, m: nat)
    requires Inv(s, k, m) && i < k && !s.producers[i].Idle?
    ensures Ordered(Move(s, i), k)
  {
    var t := Move(s, i);
    match s.producers[i] {
      case Sending(d) =>
        assert s.sent + [d] + [] == s.sent + [d];
        assert (s.taken + s.queue) + [d] == s.taken + (s.queue + [d]);
      case Adding(d) =>
        assert s.sent + [] == s.sent;
      case Evicting(d) =>
        if s.queue != [] {
          TakingTheHead(s);
          SubsequenceSkip(s.delivered, s.taken, s.queue[0]);
        }
      case Refusing(d) =>
        if k == 1 {
          SubsequenceDropLast(s.sent, d, s.offered);
          assert s.sent + [] == s.sent;
        }
      case _ =>
    }
  }

  lemma OfferKeepsInv(s: State, i: nat, d: Delivery, k: nat, m: nat)
    requires Inv(s, k, m) && Enabled(s, Offers(i, d), m)
    ensures Inv(Apply(s, Offers(i, d), m), k, m)
  {
    SumsMove(s, i, Checking(d));
    if k == 1 {
      assert s.sent + [] == s.sent;
      SubsequenceSnoc(s.sent, s.offered, d);
    }
  }

  lemma ReceiveKeepsInv(s: State, k: nat, m: nat)
    requires Inv(s, k, m) && Enabled(s, Receives, m)
    ensures Inv(Apply(s, Receives, m), k, m)
  {
    BytesHead(s.queue);
    TakingTheHead(s);
    SubsequenceSnoc(s.delivered, s.taken, s.queue[0]);
  }

  lemma StepKeepsInv(s: State, e: Event, k: nat, m: nat)
    requires Inv(s, k, m) && Enabled(s, e, m)
    ensures Inv(Apply(s, e, m), k, m)
  {
    match e {
      case Offers(i, d) => OfferKeepsInv(s, i, d, k, m);
      case Moves(i) =>
        MoveKeepsHeld(s, i, k, m);
        MoveKeepsBound(s, i, k, m);
        MoveKeepsCounts(s, i, k, m);
        MoveKeepsSmall(s, i, k, m);
        MoveKeepsOrder(s, i, k, m);
      case Receives => ReceiveKeepsInv(s, k, m);
      case _ =>
    }
  }

  lemma StartInv(k: nat, m: nat)
    ensures Inv(Start(k), k, m)
  {
    var ps := Start(k).producers;
    SumOfZero(ps, SentNotAdded);
    SumOfZero(ps, TakenNotReleased);
    SumOfZero(ps, Cleared);
    SumOfZero(ps, InHand);
    assert 0 <= (if k == 0 then 0 else (k - 1) * m);
  }

  lemma {:induction false} RunKeepsInv(k: nat, m: nat, es: seq<Event>)
    requires Run(k, m, es).Some?
    ensures Inv(Run(k, m, es).value, k, m)
  {
    if es == [] {
      StartInv(k, m);
    } else {
      var init := es[..|es| - 1];
      RunKeepsInv(k, m, init);
      StepKeepsInv(Run(k, m, init).value, es[|es| - 1], k, m);
    }
  }

  lemma {:induction false} SumOfClearedNonNegative(ps: seq<Producer>)
    ensures 0 <= SumOf(ps, Cleared)
  {
    if ps != [] {
      SumOfClearedNonNegative(ps[..|ps| - 1]);
    }
  }

  /** In every reachable state of k producers of bodies of at most m bytes and the worker. */
  lemma QueueStaysBounded(k: nat, m: nat, es: seq<Event>)
    requires k >= 1 && Run(k, m, es).Some?
    ensures var s := Run(k, m, es).value;
      && |s.queue| <= QUEUE_DEPTH
      && Bytes(s.queue) <= QUEUE_BYTES + (k - 1) * m
      && HeldExact(s)
  {
    RunKeepsInv(k, m, es);
    SumOfClearedNonNegative(Run(k, m, es).value.producers);
  }

  /** A single producer never overfills the budget, and what it offered keeps its order. */
  lemma OneProducerIsExact(m: nat, es: seq<Event>)
    requires Run(1, m, es).Some?
    ensures var s := Run(1, m, es).value;
      && Bytes(s.queue) <= QUEUE_BYTES
      && Subsequence(s.delivered + s.queue, s.offered)
  {
    RunKeepsInv(1, m, es);
    QueueStaysBounded(1, m, es);
    assert (1 - 1) * m == 0;
    var s := Run(1, m, es).value;
    if Unsent(s.producers[0]) != [] {
      SubsequenceDropLast(s.sent, s.producers[0].d, s.offered);
    } else {
      assert s.sent + [] == s.sent;
    }
    SubsequenceConcat(s.delivered, s.taken, s.queue);
    SubsequenceTrans(s.delivered + s.queue, s.sent, s.offered);
  }

  /** However many producers: what is delivered and queued is in the order it was sent, and all is counted. */
  lemma NothingLostUncounted(k: nat, m: nat, es: seq<Event>)
    requires Run(k, m, es).Some?
    ensures var s := Run(k, m, es).value;
      && Subsequence(s.delivered + s.queue, s.sent)
      && |s.offered| == |s.delivered| + |s.queue| + s.dropped + SumOf(s.producers, InHand)
  {
    RunKeepsInv(k, m, es);
    var s := Run(k, m, es).value;
    SubsequenceConcat(s.delivered, s.taken, s.queue);
  }

  lemma RunSnoc(k: nat, m: nat, es: seq<Event>, e: Event, s: State)
    requires Run(k, m, es) == Some(s) && Enabled(s, e, m)
    ensures Run(k, m, es + [e]) == Some(Apply(s, e, m))
  {
    assert (es + [e])[..|es + [e]| - 1] == es;
  }

  lemma Then(k: nat, m: nat, es: seq<Event>, s: State, e: Event) returns (es': seq<Event>, s': State)
    requires Run(k, m, es) == Some(s) && Enabled(s, e, m)
    ensures s' == Apply(s, e, m) && Run(k, m, es') == Some(s')
  {
    RunSnoc(k, m, es, e, s);
    es', s' := es + [e], Apply(s, e, m);
  }

  function Body(size: nat): (d: Delivery)
    ensures d.Size() == size
  {
    Delivery("/v1/logs", seq(size, _ => 0))
  }

  /** How much is held and queued, and where every producer stands. */
  predicate Stands(s: State, ps: seq<Producer>, bytes: nat, slots: nat) {
    s.producers == ps && Bytes(s.queue) == bytes && |s.queue| <= slots
  }

  /** One producer alone puts one request into the queue. */
  lemma SendOne(k: nat, m: nat, es: seq<Event>, s: State, bytes: nat, slots: nat, size: nat)
    returns (es': seq<Event>, s': State)
    requires Run(k, m, es) == Some(s) && k > 0 && Stands(s, seq(k, _ => Idle), bytes, slots) && s.held == bytes
    requires size <= m && bytes + size <= QUEUE_BYTES && slots < QUEUE_DEPTH
    ensures Run(k, m, es') == Some(s') && Stands(s', seq(k, _ => Idle), bytes + size, slots + 1)
      && s'.held == bytes + size
  {
    var d := Body(size);
    var es1, s1 := Then(k, m, es, s, Offers(0, d));
    var es2, s2 := Then(k, m, es1, s1, Moves(0));
    var es3, s3 := Then(k, m, es2, s2, Moves(0));
    es', s' := Then(k, m, es3, s3, Moves(0));
    assert s'.producers == s.producers;
    BytesConcat(s.queue, [d]);
    BytesOne(d);
  }

  /** So the queue can be filled up to any number of bytes for which there are slots. */
  lemma {:induction false} Fill(k: nat, m: nat, bytes: nat, slots: nat) returns (es: seq<Event>, s: State)
    requires k > 0 && bytes <= slots * m && bytes <= QUEUE_BYTES && slots <= QUEUE_DEPTH
    ensures Run(k, m, es) == Some(s) && Stands(s, seq(k, _ => Idle), bytes, slots) && s.held == bytes
    decreases slots
  {
    if slots == 0 {
      es, s := [], Start(k);
    } else {
      var size := if bytes < m then bytes else m;
      assert (slots - 1) * m == slots * m - m;
      Times(m, 0, slots - 1);
      es, s := Fill(k, m, bytes - size, slots - 1);
      es, s := SendOne(k, m, es, s, bytes - size, slots - 1, size);
    }
  }

  function Half(k: nat, j: nat, before: Producer, after: Producer): seq<Producer> {
    seq(k, i => if i < j then after else before)
  }

  lemma HalfMoves(k: nat, j: nat, before: Producer, after: Producer)
    requires j < k
    ensures Half(k, j, before, after)[j := after] == Half(k, j + 1, before, after)
  {
  }

  /** Every producer passes the check while nobody sends. */
  lemma AllCleared(k: nat, m: nat, es: seq<Event>, s: State, slots: nat) returns (es': seq<Event>, s': State)
    requires Run(k, m, es) == Some(s) && m <= QUEUE_BYTES
    requires Stands(s, seq(k, _ => Idle), QUEUE_BYTES - m, slots) && s.held == QUEUE_BYTES - m
    ensures Run(k, m, es') == Some(s') && Stands(s', seq(k, _ => Sending(Body(m))), QUEUE_BYTES - m, slots)
  {
    var d := Body(m);
    es', s' := es, s;
    assert s.producers == Half(k, 0, Idle, Sending(d));
    for j := 0 to k
      invariant Run(k, m, es') == Some(s') && s'.held == QUEUE_BYTES - m
      invariant Stands(s', Half(k, j, Idle, Sending(d)), QUEUE_BYTES - m, slots)
    {
      es', s' := Then(k, m, es', s', Offers(j, d));
      es', s' := Then(k, m, es', s', Moves(j));
      HalfMoves(k, j, Idle, Sending(d));
      assert s'.producers == Half(k, j, Idle, Sending(d))[j := Sending(d)];
    }
    assert s'.producers == seq(k, _ => Sending(d));
  }

  lemma SendingSends(s: State, ps: seq<Producer>, bytes: nat, slots: nat, j: nat, d: Delivery)
    requires Stands(s, ps, bytes, slots) && j < |ps| && ps[j] == Sending(d) && slots < QUEUE_DEPTH
    ensures Stands(Move(s, j), ps[j := Adding(d)], bytes + d.Size(), slots + 1)
  {
    BytesConcat(s.queue, [d]);
    BytesOne(d);
  }

  /** And then all of them send. */
  lemma AllSent(k: nat, m: nat, es: seq<Event>, s: State, bytes: nat, slots: nat) returns (es': seq<Event>, s': State)
    requires Run(k, m, es) == Some(s) && slots + k <= QUEUE_DEPTH
    requires Stands(s, seq(k, _ => Sending(Body(m))), bytes, slots)
    ensures Run(k, m, es') == Some(s') && Bytes(s'.queue) == bytes + k * m
  {
    var d := Body(m);
    es', s' := es, s;
    assert s.producers == Half(k, 0, Sending(d), Adding(d));
    for j := 0 to k
      invariant Run(k, m, es') == Some(s')
      invariant Stands(s', Half(k, j, Sending(d), Adding(d)), bytes + j * m, slots + j)
    {
      SendingSends(s', Half(k, j, Sending(d), Adding(d)), bytes + j * m, slots + j, j, d);
      es', s' := Then(k, m, es', s', Moves(j));
      HalfMoves(k, j, Sending(d), Adding(d));
      assert (j + 1) * m == j * m + m;
    }
  }

  /**
   The slack is real: wherever the queue has slots enough, k producers that all check before any sends
   put exactly what QueueStaysBounded allows into it.
   */
  lemma TheBoundIsReached(k: nat, m: nat, slots: nat)
    requires k > 0 && m <= QUEUE_BYTES && QUEUE_BYTES - m <= slots * m && slots + k <= QUEUE_DEPTH
    ensures exists es :: Run(k, m, es).Some? && Bytes(Run(k, m, es).value.queue) == QUEUE_BYTES + (k - 1) * m
  {
    var es, s := Fill(k, m, QUEUE_BYTES - m, slots);
    es, s := AllCleared(k, m, es, s, slots);
    es, s := AllSent(k, m, es, s, QUEUE_BYTES - m, slots);
    assert (k - 1) * m == k * m - m;
  }

  // What enqueue does with the queue: alone it keeps the newest, and nobody's request is refused while one is queued.

  /** The producer at i takes n steps, and nobody else any. */
  function Steps(s: State, i: nat, n: nat): Option<State>
    decreases n
  {
    if n == 0 then Some(s)
    else if i >= |s.producers| || s.producers[i].Idle? then None
    else Steps(Move(s, i), i, n - 1)
  }

  /** It comes back with this in the queue, and so many more dropped. */
  ghost predicate ComesBack(s: State, i: nat, n: nat, queue: seq<Delivery>, dropped: int) {
    && i < |s.producers| && Steps(s, i, n) != None
    && var t := Steps(s, i, n).value;
      && t.producers == s.producers[i := Idle]
      && t.queue == queue && t.dropped == s.dropped + dropped && t.held == Bytes(queue)
  }

  lemma FitsInFull(q: seq<Delivery>, d: Delivery)
    requires |q| < QUEUE_DEPTH && Bytes(q) + d.Size() <= QUEUE_BYTES
    ensures LongestFit(q + [d]) == q + [d] && Bytes(q + [d]) == Bytes(q) + d.Size()
  {
    BytesConcat(q, [d]);
    BytesOne(d);
  }

  lemma NotFitting(q: seq<Delivery>)
    requires !Fits(q)
    ensures LongestFit(q) == LongestFit(q[1..])
  {
  }

  lemma OldestGoes(q: seq<Delivery>, d: Delivery)
    requires q != [] && (|q| >= QUEUE_DEPTH || Bytes(q) + d.Size() > QUEUE_BYTES)
    ensures LongestFit(q + [d]) == LongestFit(q[1..] + [d])
  {
    hide LongestFit, Bytes;
    BytesConcat(q, [d]);
    BytesOne(d);
    NotFitting(q + [d]);
    ConcatTail(q, [d]);
  }

  /** Room for it: two steps put it last. */
  lemma AloneSends(s: State, i: nat, d: Delivery)
    requires i < |s.producers| && s.producers[i] == Checking(d) && s.held == Bytes(s.queue)
    requires |s.queue| < QUEUE_DEPTH && Room(s, d)
    ensures ComesBack(s, i, 3, LongestFit(s.queue + [d]), 0)
  {
    FitsInFull(s.queue, d);
    var t := Move(Move(Move(s, i), i), i);
    assert Steps(s, i, 3) == Steps(Move(s, i), i, 2) == Steps(Move(Move(s, i), i), i, 1) == Steps(t, i, 0);
    assert t.producers == s.producers[i := Idle];
  }

  /** No room in an empty queue: it is refused. */
  lemma AloneRefuses(s: State, i: nat, d: Delivery)
    requires i < |s.producers| && s.producers[i] == Checking(d) && s.held == Bytes(s.queue)
    requires s.queue == [] && !Room(s, d)
    ensures ComesBack(s, i, 4, LongestFit(s.queue + [d]), 1)
  {
    OversizedIsDropped(d);
    var a := Move(s, i);
    var b := Move(a, i);
    var c := Move(b, i);
    var t := Move(c, i);
    assert Steps(s, i, 4) == Steps(a, i, 3) == Steps(b, i, 2) == Steps(c, i, 1) == Steps(t, i, 0);
    assert t.producers == s.producers[i := Idle] && s.queue + [d] == [d];
  }

  lemma OversizedIsDropped(d: Delivery)
    requires d.Size() > QUEUE_BYTES
    ensures LongestFit([d]) == []
  {
    BytesOne(d);
    assert [d][1..] == [];
  }

  /** Steps from no room to the check with the oldest gone: by way of a full queue, or of too many bytes. */
  function ToEvict(s: State, d: Delivery): nat {
    if Room(s, d) then 5 else 4
  }

  lemma AloneEvicts(s: State, i: nat, d: Delivery) returns (t: State)
    requires i < |s.producers| && s.producers[i] == Checking(d) && s.held == Bytes(s.queue)
    requires s.queue != [] && (|s.queue| >= QUEUE_DEPTH || !Room(s, d))
    ensures Steps(s, i, ToEvict(s, d)) == Some(t)
    ensures t.producers == s.producers && t.queue == s.queue[1..] && t.dropped == s.dropped + 1
      && t.held == Bytes(t.queue)
  {
    var n := ToEvict(s, d);
    var a := if Room(s, d) then Move(Move(s, i), i) else Move(s, i);
    assert a == At(s, i, Evicting(d)) && Steps(s, i, n) == Steps(a, i, 3);
    var b := Move(a, i);
    var c := Move(b, i);
    t := Move(c, i);
    assert Steps(a, i, 3) == Steps(b, i, 2) == Steps(c, i, 1) == Steps(t, i, 0);
    BytesHead(s.queue);
    assert t.producers == s.producers;
  }

  lemma {:induction false} StepsConcat(s: State, i: nat, m: nat, n: nat)
    requires Steps(s, i, m) != None
    ensures Steps(s, i, m + n) == Steps(Steps(s, i, m).value, i, n)
    decreases m
  {
    if m > 0 {
      StepsConcat(Move(s, i), i, m - 1, n);
    }
  }

  /**
   With nobody interleaving, the steps of one producer from the check to its return end with the longest
   fitting suffix of the queue and its request, as the loop of the source that is modelled as one call does,
   and count exactly what went.
   */
  lemma {:induction false} AloneKeepsTheNewest(s: State, i: nat, d: Delivery) returns (n: nat)
    requires i < |s.producers| && s.producers[i] == Checking(d) && s.held == Bytes(s.queue)
    ensures var queue := LongestFit(s.queue + [d]);
      ComesBack(s, i, n, queue, |s.queue| + 1 - |queue|)
    decreases |s.queue|
  {
    if |s.queue| < QUEUE_DEPTH && Room(s, d) {
      AloneSends(s, i, d);
      FitsInFull(s.queue, d);
      n := 3;
    } else if s.queue == [] {
      AloneRefuses(s, i, d);
      OversizedIsDropped(d);
      assert s.queue + [d] == [d];
      n := 4;
    } else {
      var t := AloneEvicts(s, i, d);
      OldestGoes(s.queue, d);
      var rest := AloneKeepsTheNewest(t, i, d);
      StepsConcat(s, i, ToEvict(s, d), rest);
      n := ToEvict(s, d) + rest;
    }
  }

  function Repeat(e: Event, n: nat): seq<Event> {
    if n == 0 then [] else [e] + Repeat(e, n - 1)
  }

  lemma {:induction false} StepsAreMoves(k: nat, m: nat, es: seq<Event>, s: State, i: nat, n: nat)
    requires Run(k, m, es) == Some(s) && Steps(s, i, n) != None
    ensures Run(k, m, es + Repeat(Moves(i), n)) == Steps(s, i, n)
    decreases n
  {
    if n == 0 {
      assert es + [] == es;
    } else {
      RunSnoc(k, m, es, Moves(i), s);
      StepsAreMoves(k, m, es + [Moves(i)], Move(s, i), i, n - 1);
      ConcatIsAssociative(es, [Moves(i)], Repeat(Moves(i), n - 1));
    }
  }

  /** Nobody is inside enqueue, and the worker holds nothing it has not given back. */
  predicate Quiet(s: State) {
    (forall p <- s.producers :: p.Idle?) && !s.worker.Releasing?
  }

  lemma QuietHeldIsExact(k: nat, m: nat, es: seq<Event>)
    requires Run(k, m, es).Some? && Quiet(Run(k, m, es).value)
    ensures var s := Run(k, m, es).value; s.held == Bytes(s.queue)
  {
    RunKeepsInv(k, m, es);
    SumOfZero(Run(k, m, es).value.producers, SentNotAdded);
    SumOfZero(Run(k, m, es).value.producers, TakenNotReleased);
  }

  /** From wherever a run leaves nobody inside, an enqueue that nobody interleaves keeps the newest that fit. */
  lemma AloneRunKeepsTheNewest(k: nat, m: nat, es: seq<Event>, i: nat, d: Delivery) returns (n: nat)
    requires Run(k, m, es).Some? && Quiet(Run(k, m, es).value) && i < |Run(k, m, es).value.producers| && d.Size() <= m
    ensures Run(k, m, es + [Offers(i, d)] + Repeat(Moves(i), n)).Some?
    ensures var s, t := Run(k, m, es).value, Run(k, m, es + [Offers(i, d)] + Repeat(Moves(i), n)).value;
      && t.producers == s.producers && t.queue == LongestFit(s.queue + [d])
      && t.dropped == s.dropped + |s.queue| + 1 - |t.queue|
  {
    var s := Run(k, m, es).value;
    QuietHeldIsExact(k, m, es);
    assert s.producers[i] in s.producers;
    RunSnoc(k, m, es, Offers(i, d), s);
    var a := Apply(s, Offers(i, d), m);
    n := AloneKeepsTheNewest(a, i, d);
    StepsAreMoves(k, m, es + [Offers(i, d)], a, i, n);
    assert a.producers[i := Idle] == s.producers;
  }

  /** A producer comes to refuse only from a recheck without room, and to recheck only from an empty queue. */
  lemma WhereFrom(s: State, e: Event, m: nat, i: nat)
    requires Enabled(s, e, m) && i < |Apply(s, e, m).producers|
    ensures var p := Apply(s, e, m).producers[i];
      && i < |s.producers|
      && (p.Refusing? ==>
            if e == Moves(i) then s.producers[i] == Rechecking(p.d) && !Room(s, p.d) else s.producers[i] == p)
      && (p.Rechecking? ==>
            if e == Moves(i) then s.producers[i] == Evicting(p.d) && s.queue == [] else s.producers[i] == p)
  {
  }

  /** The producer at i was last moved at j, from this place. */
  ghost predicate LastMoved(k: nat, m: nat, es: seq<Event>, i: nat, j: nat, from: Producer) {
    && j < |es| && es[j] == Moves(i) && (forall x | j < x < |es| :: es[x] != Moves(i))
    && Run(k, m, es[..j]) != None && i < |Run(k, m, es[..j]).value.producers|
    && Run(k, m, es[..j]).value.producers[i] == from
  }

  lemma MovedNow(k: nat, m: nat, es: seq<Event>, i: nat, from: Producer)
    requires es != [] && es[|es| - 1] == Moves(i) && Run(k, m, es[..|es| - 1]).Some?
    requires i < |Run(k, m, es[..|es| - 1]).value.producers| && Run(k, m, es[..|es| - 1]).value.producers[i] == from
    ensures LastMoved(k, m, es, i, |es| - 1, from)
  {
  }

  lemma MovedBefore(k: nat, m: nat, es: seq<Event>, i: nat, j: nat, from: Producer)
    requires es != [] && es[|es| - 1] != Moves(i) && LastMoved(k, m, es[..|es| - 1], i, j, from)
    ensures LastMoved(k, m, es, i, j, from) && es[..|es| - 1][..j] == es[..j]
  {
    assert es[..|es| - 1][..j] == es[..j];
  }

  lemma {:induction false} RefusedFromRecheck(k: nat, m: nat, es: seq<Event>, i: nat, d: Delivery) returns (j: nat)
    requires Run(k, m, es).Some? && i < |Run(k, m, es).value.producers|
      && Run(k, m, es).value.producers[i] == Refusing(d)
    ensures LastMoved(k, m, es, i, j, Rechecking(d)) && !Room(Run(k, m, es[..j]).value, d)
  {
    hide Apply, LastMoved;
    var init, e := es[..|es| - 1], es[|es| - 1];
    WhereFrom(Run(k, m, init).value, e, m, i);
    if e == Moves(i) {
      MovedNow(k, m, es, i, Rechecking(d));
      j := |es| - 1;
    } else {
      j := RefusedFromRecheck(k, m, init, i, d);
      MovedBefore(k, m, es, i, j, Rechecking(d));
    }
  }

  lemma {:induction false} RecheckFromEmpty(k: nat, m: nat, es: seq<Event>, i: nat, d: Delivery) returns (j: nat)
    requires Run(k, m, es).Some? && i < |Run(k, m, es).value.producers|
    requires Run(k, m, es).value.producers[i] == Rechecking(d)
    ensures LastMoved(k, m, es, i, j, Evicting(d)) && Run(k, m, es[..j]).value.queue == []
  {
    hide Apply, LastMoved;
    var init, e := es[..|es| - 1], es[|es| - 1];
    WhereFrom(Run(k, m, init).value, e, m, i);
    if e == Moves(i) {
      MovedNow(k, m, es, i, Evicting(d));
      j := |es| - 1;
    } else {
      j := RecheckFromEmpty(k, m, init, i, d);
      MovedBefore(k, m, es, i, j, Evicting(d));
    }
  }

  /**
   In every interleaving a request is refused only after its own producer found the queue empty, and no room
   for it all the same: the last two steps it took.
   */
  lemma RefusedOnlyFromEmpty(k: nat, m: nat, es: seq<Event>, i: nat, d: Delivery) returns (emptied: nat, checked: nat)
    requires Run(k, m, es).Some? && i < |Run(k, m, es).value.producers|
      && Run(k, m, es).value.producers[i] == Refusing(d)
    ensures LastMoved(k, m, es, i, checked, Rechecking(d)) && !Room(Run(k, m, es[..checked]).value, d)
    ensures emptied < checked && LastMoved(k, m, es[..checked], i, emptied, Evicting(d))
    ensures Run(k, m, es[..emptied]).Some? && Run(k, m, es[..emptied]).value.queue == []
  {
    checked := RefusedFromRecheck(k, m, es, i, d);
    emptied := RecheckFromEmpty(k, m, es[..checked], i, d);
    assert es[..checked][..emptied] == es[..emptied];
  }

  // enqueue returns: with no new request, a rank falls at every step of any producer and of the worker.

  function UnsentOne(p: Producer): int {
    if p.Idle? || p.Adding? then 0 else 1
  }

  /** A change of held that a producer still owes. */
  function OwedOne(p: Producer): int {
    if p.Adding? || p.Subtracting? then 1 else 0
  }

  /** What can still be sent, evicted, refused or received. */
  function Work(s: State): int {
    2 * SumOf(s.producers, UnsentOne) + |s.queue|
  }

  function Owed(s: State): int {
    SumOf(s.producers, OwedOne) + if s.worker.Releasing? then 1 else 0
  }

  /** How many steps a producer is from one that does or owes something, while neither the queue nor held changes. */
  function Away(held: int, empty: bool, p: Producer): nat {
    match p
    case Idle | Adding(_) | Subtracting(_, _) => 0
    case Refusing(_) => 1
    case Sending(_) => 3
    case Checking(d) => if held + d.Size() <= QUEUE_BYTES then 4 else 7
    case Rechecking(_) => 5
    case Evicting(_) => if empty then 6 else 2
    case Counting(_) => 8
  }

  function AwayAll(held: int, empty: bool, ps: seq<Producer>): nat {
    if ps == [] then 0 else AwayAll(held, empty, ps[..|ps| - 1]) + Away(held, empty, ps[|ps| - 1])
  }

  lemma {:induction false} AwayBound(held: int, empty: bool, ps: seq<Producer>)
    ensures AwayAll(held, empty, ps) <= 8 * |ps|
  {
    if ps != [] {
      AwayBound(held, empty, ps[..|ps| - 1]);
    }
  }

  lemma {:induction false} AwayMoves(held: int, empty: bool, ps: seq<Producer>, i: nat, p: Producer)
    requires i < |ps|
    ensures AwayAll(held, empty, ps[i := p]) == AwayAll(held, empty, ps) - Away(held, empty, ps[i])
      + Away(held, empty, p)
  {
    var qs := ps[i := p];
    if i == |ps| - 1 {
      assert qs[..|qs| - 1] == ps[..|ps| - 1];
    } else {
      assert qs[..|qs| - 1] == ps[..|ps| - 1][i := p];
      AwayMoves(held, empty, ps[..|ps| - 1], i, p);
    }
  }

  lemma {:induction false} CountsAreSmall(ps: seq<Producer>)
    ensures 0 <= SumOf(ps, UnsentOne) && 0 <= SumOf(ps, OwedOne)
      && SumOf(ps, UnsentOne) + SumOf(ps, OwedOne) <= 2 * |ps|
    ensures SumOf(ps, UnsentOne) <= |ps| && SumOf(ps, OwedOne) <= |ps|
  {
    if ps != [] {
      CountsAreSmall(ps[..|ps| - 1]);
    }
  }

  /** More than any change can move the producers at once. */
  function Unit(s: State): nat {
    9 * (|s.producers| + 1)
  }

  function Rank(s: State): int {
    Unit(s) * (2 * Work(s) + Owed(s)) + AwayAll(s.held, s.queue == [], s.producers)
  }

  lemma Times(u: nat, a: int, b: int)
    requires a <= b
    ensures u * a <= u * b
  {
  }

  /** A step that uses work up, or pays what is owed, lowers the rank wherever the producers stand then. */
  lemma OneLess(u: nat, v: int, v': int, x: nat, x': nat)
    requires v' <= v - 1 && x' < u
    ensures u * v' + x' < u * v + x
  {
    Times(u, v', v - 1);
    assert u * (v - 1) == u * v - u;
  }

  lemma CountsMove(s: State, i: nat, p: Producer)
    requires i < |s.producers|
    ensures SumOf(s.producers[i := p], UnsentOne) == SumOf(s.producers, UnsentOne) - UnsentOne(s.producers[i])
      + UnsentOne(p)
    ensures SumOf(s.producers[i := p], OwedOne) == SumOf(s.producers, OwedOne) - OwedOne(s.producers[i]) + OwedOne(p)
  {
    SumOfUpdate(s.producers, i, p, UnsentOne);
    SumOfUpdate(s.producers, i, p, OwedOne);
  }

  /** A step of a producer sends, evicts or refuses; or pays what it owes; or brings it nearer to one of them. */
  lemma MoveWorks(s: State, i: nat)
    requires i < |s.producers| && !s.producers[i].Idle?
    ensures var t := Move(s, i);
      || (Work(t) <= Work(s) - 1 && Owed(t) <= Owed(s) + 1)
      || (Work(t) == Work(s) && Owed(t) == Owed(s) - 1)
      || (Work(t) == Work(s) && Owed(t) == Owed(s) && t.held == s.held && t.queue == s.queue
          && Away(s.held, s.queue == [], t.producers[i]) < Away(s.held, s.queue == [], s.producers[i]))
  {
    MoveReplaces(s, i);
    CountsMove(s, i, Move(s, i).producers[i]);
  }

  lemma MoveLowersRank(s: State, i: nat)
    requires i < |s.producers| && !s.producers[i].Idle?
    ensures Rank(Move(s, i)) < Rank(s)
  {
    var t := Move(s, i);
    MoveReplaces(s, i);
    MoveWorks(s, i);
    AwayBound(t.held, t.queue == [], t.producers);
    var x, x' := AwayAll(s.held, s.queue == [], s.producers), AwayAll(t.held, t.queue == [], t.producers);
    if 2 * Work(t) + Owed(t) < 2 * Work(s) + Owed(s) {
      OneLess(Unit(s), 2 * Work(s) + Owed(s), 2 * Work(t) + Owed(t), x, x');
    } else {
      AwayMoves(s.held, s.queue == [], s.producers, i, t.producers[i]);
    }
  }

  lemma StepLowersRank(s: State, e: Event, m: nat)
    requires Enabled(s, e, m) && !e.Offers?
    ensures |Apply(s, e, m).producers| == |s.producers|
    ensures Rank(Apply(s, e, m)) + (if e.Moves? then 1 else 0) <= Rank(s)
  {
    var t := Apply(s, e, m);
    var x, x' := AwayAll(s.held, s.queue == [], s.producers), AwayAll(t.held, t.queue == [], t.producers);
    match e {
      case Moves(i) => MoveLowersRank(s, i);
      case Receives =>
        AwayBound(t.held, t.queue == [], t.producers);
        OneLess(Unit(s), 2 * Work(s) + Owed(s), 2 * Work(t) + Owed(t), x, x');
      case Releases =>
        AwayBound(t.held, t.queue == [], t.producers);
        OneLess(Unit(s), 2 * Work(s) + Owed(s), 2 * Work(t) + Owed(t), x, x');
      case Posted =>
    }
  }

  function MovesIn(es: seq<Event>): nat {
    if es == [] then 0 else MovesIn(es[..|es| - 1]) + if es[|es| - 1].Moves? then 1 else 0
  }

  lemma {:induction false} MovesLowerRank(k: nat, m: nat, before: seq<Event>, during: seq<Event>)
    requires Run(k, m, before + during).Some? && forall e <- during :: !e.Offers?
    ensures Run(k, m, before).Some?
    ensures MovesIn(during) + Rank(Run(k, m, before + during).value) <= Rank(Run(k, m, before).value)
    decreases |during|
  {
    if during == [] {
      assert before + during == before;
    } else {
      var init, last := during[..|during| - 1], during[|during| - 1];
      var all := before + during;
      assert all[..|all| - 1] == before + init && all[|all| - 1] == last && last in during;
      MovesLowerRank(k, m, before, init);
      StepLowersRank(Run(k, m, before + init).value, last, m);
    }
  }

  lemma RankIsBounded(s: State, k: nat, m: nat)
    requires Inv(s, k, m)
    ensures 0 <= Rank(s) <= 9 * (k + 1) * (2 * (2 * k + QUEUE_DEPTH) + k + 1) + 8 * k
  {
    CountsAreSmall(s.producers);
    AwayBound(s.held, s.queue == [], s.producers);
    var v := 2 * Work(s) + Owed(s);
    assert 0 <= v <= 2 * (2 * k + QUEUE_DEPTH) + k + 1;
    Times(Unit(s), 0, v);
    Times(Unit(s), v, 2 * (2 * k + QUEUE_DEPTH) + k + 1);
  }

  /**
   Every enqueue under way returns: however k producers and the worker interleave, their steps before
   another request is offered are bounded, by the number of producers alone.
   */
  lemma EnqueueReturns(k: nat, m: nat, before: seq<Event>, during: seq<Event>)
    requires Run(k, m, before + during).Some? && forall e <- during :: !e.Offers?
    ensures MovesIn(during) <= 9 * (k + 1) * (2 * (2 * k + QUEUE_DEPTH) + k + 1) + 8 * k
  {
    MovesLowerRank(k, m, before, during);
    RunKeepsInv(k, m, before);
    RunKeepsInv(k, m, before + during);
    RankIsBounded(Run(k, m, before).value, k, m);
    RankIsBounded(Run(k, m, before + during).value, k, m);
  }
}
