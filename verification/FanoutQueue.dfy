/**
 The queue of one fan out subscriber, used by one goroutine at a time: what enqueue keeps when
 nothing interleaves with it. FanoutConcurrent takes the same steps apart.
 */
module FanoutQueue {
  import opened Collections

  const QUEUE_DEPTH: nat := 1024
  const QUEUE_BYTES: nat := 67108864

  /** One encoded export request. Its size is the length of its body. */
  datatype Delivery = Delivery(path: string, body: seq<bv8>) {
    function Size(): nat { |body| }
  }

  function Bytes(q: seq<Delivery>): nat {
    if q == [] then 0 else q[0].Size() + Bytes(q[1..])
  }

  lemma {:induction false} BytesConcat(a: seq<Delivery>, b: seq<Delivery>)
    ensures Bytes(a + b) == Bytes(a) + Bytes(b)
  {
    if a == [] {
      assert a + b == b;
    } else {
      assert (a + b)[1..] == a[1..] + b;
      BytesConcat(a[1..], b);
    }
  }

  lemma BytesOne(d: Delivery)
    ensures Bytes([d]) == d.Size()
  {
    assert [d][1..] == [];
  }

  lemma BytesHead(q: seq<Delivery>)
    requires q != []
    ensures Bytes(q) == q[0].Size() + Bytes(q[1..])
  {
  }

  /** Both bounds of the queue at once. */
  predicate Fits(q: seq<Delivery>) {
    |q| <= QUEUE_DEPTH && Bytes(q) <= QUEUE_BYTES
  }

  /** q is the longest suffix of xs that fits both bounds. */
  ghost predicate IsLongestFit(q: seq<Delivery>, xs: seq<Delivery>) {
    && |q| <= |xs|
    && q == xs[|xs| - |q|..]
    && Fits(q)
    && forall k: nat :: k <= |xs| && Fits(xs[k..]) ==> |xs| - k <= |q|
  }

  /** The longest suffix of xs that fits both bounds. The empty one always does. */
  function LongestFit(xs: seq<Delivery>): (q: seq<Delivery>)
    ensures Fits(q) && |q| <= |xs|
  {
    if Fits(xs) then xs else LongestFit(xs[1..])
  }

  /** IsLongestFit has exactly one solution, so a contract that names LongestFit leaves no choice. */
  lemma {:induction false} LongestFitExact(q: seq<Delivery>, xs: seq<Delivery>)
    ensures IsLongestFit(q, xs) <==> q == LongestFit(xs)
  {
    LongestFitIsLongest(xs);
    if IsLongestFit(q, xs) {
      var r := LongestFit(xs);
      assert xs[|xs| - |q|..] == q && xs[|xs| - |r|..] == r;
    }
  }

  lemma {:induction false} LongestFitIsLongest(xs: seq<Delivery>)
    ensures IsLongestFit(LongestFit(xs), xs)
  {
    if !Fits(xs) {
      LongestFitIsLongest(xs[1..]);
      var q := LongestFit(xs[1..]);
      assert xs[1..][|xs| - 1 - |q|..] == xs[|xs| - |q|..];
      forall k: nat | k <= |xs| && Fits(xs[k..])
        ensures |xs| - k <= |q|
      {
        assert xs[0..] == xs;
        assert xs[1..][k - 1..] == xs[k..];
      }
    }
  }

  /** Dropping a head that cannot be kept changes nothing about the longest fit. */
  lemma LongestFitDropsHead(xs: seq<Delivery>)
    requires xs != [] && !Fits(xs)
    ensures LongestFit(xs) == LongestFit(xs[1..])
  {
  }

  /** What was evicted earlier can be forgotten: a later longest fit never reaches back to it. */
  lemma {:induction false} LongestFitIncremental(xs: seq<Delivery>, d: Delivery)
    ensures LongestFit(xs + [d]) == LongestFit(LongestFit(xs) + [d])
  {
    if !Fits(xs) {
      assert (xs + [d])[1..] == xs[1..] + [d];
      BytesConcat(xs, [d]);
      LongestFitDropsHead(xs);
      LongestFitDropsHead(xs + [d]);
      LongestFitIncremental(xs[1..], d);
    }
  }

  /** A request over the whole budget leaves the queue empty, and no other request does. */
  lemma OversizedEmptiesTheQueue(q: seq<Delivery>, d: Delivery)
    ensures LongestFit(q + [d]) == [] <==> d.Size() > QUEUE_BYTES
  {
    var xs := q + [d];
    LongestFitIsLongest(xs);
    assert xs[|q|..] == [d];
    BytesOne(d);
    var r := LongestFit(xs);
    if r != [] {
      assert r == r[..|r| - 1] + [d];
      BytesConcat(r[..|r| - 1], [d]);
    }
  }

  class Subscriber {
    var queue: seq<Delivery>
    var held: int
    var dropped: int

    ghost predicate Valid()
      reads this
    {
      Fits(queue) && held == Bytes(queue)
    }

    constructor ()
      ensures Valid() && queue == [] && dropped == 0
    {
      queue, held, dropped := [], 0, 0;
    }

    /** The eviction loop. What it leaves is the longest suffix that fits, whatever the size of d. */
    method Enqueue(d: Delivery)
      requires Valid()
      modifies this
      ensures Valid()
      ensures queue == LongestFit(old(queue) + [d])
      ensures dropped == old(dropped) + |old(queue)| + 1 - |queue|
    {
      var size := d.Size();
      while true
        invariant Valid()
        invariant LongestFit(queue + [d]) == LongestFit(old(queue) + [d])
        invariant dropped == old(dropped) + |old(queue)| - |queue|
        decreases |queue|
      {
        BytesConcat(queue, [d]);
        BytesOne(d);
        if held + size <= QUEUE_BYTES {
          if |queue| < QUEUE_DEPTH {
            queue := queue + [d];
            held := held + size;
            return;
          }
        }
        if queue != [] {
          LongestFitDropsHead(queue + [d]);
          assert (queue + [d])[1..] == queue[1..] + [d];
          held := held - queue[0].Size();
          queue := queue[1..];
          dropped := dropped + 1;
        } else {
          if held + size <= QUEUE_BYTES {
            // Only a worker taking a request between the two checks leads here.
            assert false;
          }
          LongestFitDropsHead(queue + [d]);
          dropped := dropped + 1;
          return;
        }
      }
    }

    /** The worker takes the oldest request and gives its bytes back. */
    method Take() returns (d: Delivery)
      requires Valid() && queue != []
      modifies this
      ensures Valid()
      ensures [d] + queue == old(queue) && dropped == old(dropped)
    {
      d := queue[0];
      queue := queue[1..];
      held := held - d.Size();
    }
  }

  /** What happens to one subscriber: a producer offers, or its worker takes. */
  datatype Op = Offer(d: Delivery) | Taken

  datatype History = History(queue: seq<Delivery>, offered: seq<Delivery>, delivered: seq<Delivery>, dropped: int)

  /** The contracts of Enqueue and Take, over any order of the two. A take of an empty queue waits. */
  function After(ops: seq<Op>): History {
    if ops == [] then History([], [], [], 0)
    else
      var h := After(ops[..|ops| - 1]);
      match ops[|ops| - 1]
      case Offer(d) =>
        var kept := LongestFit(h.queue + [d]);
        History(kept, h.offered + [d], h.delivered, h.dropped + |h.queue| + 1 - |kept|)
      case Taken =>
        if h.queue == [] then h
        else h.(queue := h.queue[1..], delivered := h.delivered + [h.queue[0]])
  }

  /** Without a worker the queue is the longest fitting suffix of everything ever offered. */
  lemma {:induction false} QueueIsLongestFitOfAllOffered(ops: seq<Op>)
    requires forall op <- ops :: op.Offer?
    ensures After(ops).queue == LongestFit(After(ops).offered)
  {
    if ops != [] {
      var h := After(ops[..|ops| - 1]);
      QueueIsLongestFitOfAllOffered(ops[..|ops| - 1]);
      assert ops[|ops| - 1] in ops;
      LongestFitIncremental(h.offered, ops[|ops| - 1].d);
    } else {
      assert Fits([]);
    }
  }

  /** With a worker, nothing is reordered, duplicated or lost without being counted. */
  lemma {:induction false} NothingReorderedOrUncounted(ops: seq<Op>)
    ensures Fits(After(ops).queue)
    ensures Subsequence(After(ops).delivered + After(ops).queue, After(ops).offered)
    ensures |After(ops).offered| == |After(ops).delivered| + |After(ops).queue| + After(ops).dropped
  {
    if ops != [] {
      var h := After(ops[..|ops| - 1]);
      NothingReorderedOrUncounted(ops[..|ops| - 1]);
      match ops[|ops| - 1]
      case Offer(d) => OfferKeepsOrder(h.delivered, h.queue, h.offered, d);
      case Taken =>
        if h.queue != [] {
          assert h.delivered + h.queue == (h.delivered + [h.queue[0]]) + h.queue[1..];
          BytesHead(h.queue);
        }
    }
  }

  lemma OfferKeepsOrder(delivered: seq<Delivery>, queue: seq<Delivery>, offered: seq<Delivery>, d: Delivery)
    requires Subsequence(delivered + queue, offered)
    ensures Subsequence(delivered + LongestFit(queue + [d]), offered + [d])
  {
    var xs := queue + [d];
    OfferExtends(delivered, queue, offered, d);
    LongestFitIsLongest(xs);
    var kept := LongestFit(xs);
    assert kept == xs[|xs| - |kept|..];
    DroppingOldestKeepsOrder(delivered, xs, |xs| - |kept|, offered + [d]);
  }

  lemma OfferExtends(delivered: seq<Delivery>, queue: seq<Delivery>, offered: seq<Delivery>, d: Delivery)
    requires Subsequence(delivered + queue, offered)
    ensures Subsequence(delivered + (queue + [d]), offered + [d])
  {
    SubsequenceSnoc(delivered + queue, offered, d);
    assert (delivered + queue) + [d] == delivered + (queue + [d]);
  }

  lemma DroppingOldestKeepsOrder(front: seq<Delivery>, xs: seq<Delivery>, k: nat, all: seq<Delivery>)
    requires k <= |xs| && Subsequence(front + xs, all)
    ensures Subsequence(front + xs[k..], all)
  {
    SuffixSubsequence(front, xs, k);
    SubsequenceTrans(front + xs[k..], front + xs, all);
  }

  lemma SuffixSubsequence(front: seq<Delivery>, xs: seq<Delivery>, k: nat)
    requires k <= |xs|
    ensures Subsequence(front + xs[k..], front + xs)
  {
    PrefixSubsequence(front, xs[..k]);
    SubsequenceConcat(front, front + xs[..k], xs[k..]);
    assert front + xs == (front + xs[..k]) + xs[k..];
  }

  lemma {:induction false} PrefixSubsequence(front: seq<Delivery>, more: seq<Delivery>)
    ensures Subsequence(front, front + more)
    decreases |more|
  {
    if more == [] {
      SubsequenceRefl(front);
      assert front + more == front;
    } else {
      PrefixSubsequence(front, more[..|more| - 1]);
      SubsequenceSkip(front, front + more[..|more| - 1], more[|more| - 1]);
      assert front + more == (front + more[..|more| - 1]) + [more[|more| - 1]];
    }
  }
}
