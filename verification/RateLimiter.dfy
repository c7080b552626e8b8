/** How many causes one peer may record in a window, and what that is worth over any stretch of time. */
module RateLimiters {
  import opened Collections

  type Peer = string
  type Time = int

  datatype Window = Window(count: int, until: Time)

  datatype Limit = Limit(most: int, window: Time) {
    predicate Valid() {
      window > 0
    }

    /** What one window grants: a window is opened by a grant, whatever the limit. */
    function PerWindow(): int {
      if most < 1 then 1 else most
    }
  }

  datatype Request = Request(peer: Peer, now: Time)

  function Pruned(peers: map<Peer, Window>, now: Time): map<Peer, Window> {
    map p | p in peers && now < peers[p].until :: peers[p]
  }

  predicate Opens(peers: map<Peer, Window>, r: Request) {
    r.peer !in peers || r.now >= peers[r.peer].until
  }

  predicate Granted(l: Limit, peers: map<Peer, Window>, r: Request) {
    Opens(peers, r) || peers[r.peer].count < l.most
  }

  /** The table after a request. One that never prunes keeps every window it ever opened. */
  function After(l: Limit, prunes: bool, peers: map<Peer, Window>, r: Request): map<Peer, Window> {
    if Opens(peers, r) then
      (if prunes then Pruned(peers, r.now) else peers)[r.peer := Window(1, r.now + l.window)]
    else if !Granted(l, peers, r) then peers
    else peers[r.peer := peers[r.peer].(count := peers[r.peer].count + 1)]
  }

  class RateLimiter {
    const limit: Limit
    var peers: map<Peer, Window>

    constructor (limit: Limit)
      ensures this.limit == limit && peers == map[]
    {
      this.limit, peers := limit, map[];
    }

    method Allow(peer: Peer, now: Time) returns (ok: bool)
      modifies this
      ensures ok == Granted(limit, old(peers), Request(peer, now))
      ensures peers == After(limit, true, old(peers), Request(peer, now))
    {
      if peer !in peers || !(now < peers[peer].until) {
        Prune(now);
        peers := peers[peer := Window(1, now + limit.window)];
        return true;
      }
      var current := peers[peer];
      if current.count >= limit.most {
        return false;
      }
      peers := peers[peer := current.(count := current.count + 1)];
      ok := true;
    }

    method Prune(now: Time)
      modifies this
      ensures peers == Pruned(old(peers), now)
    {
      var keys := Enumerate(peers);
      for i := 0 to |keys|
        invariant forall p <- peers :: p in old(peers) && peers[p] == old(peers)[p]
        invariant forall p <- old(peers) :: p in peers || old(peers)[p].until <= now
        invariant forall k | 0 <= k < i :: keys[k] in peers ==> now < peers[keys[k]].until
        invariant forall p <- old(peers) :: p in keys
      {
        if keys[i] in peers && !(now < peers[keys[i]].until) {
          peers := peers - {keys[i]};
        }
      }
    }
  }

  /** The table after a list of requests. */
  function Table(l: Limit, prunes: bool, rs: seq<Request>): map<Peer, Window> {
    if rs == [] then map[] else After(l, prunes, Table(l, prunes, rs[..|rs| - 1]), rs[|rs| - 1])
  }

  /** Whether the last request of a list was granted. */
  predicate LastGranted(l: Limit, prunes: bool, rs: seq<Request>)
    requires rs != []
  {
    Granted(l, Table(l, prunes, rs[..|rs| - 1]), rs[|rs| - 1])
  }

  /** How often a peer was granted one from a on and before b. */
  function Grants(l: Limit, prunes: bool, rs: seq<Request>, peer: Peer, a: Time, b: Time): nat {
    if rs == [] then 0
    else
      var r := rs[|rs| - 1];
      Grants(l, prunes, rs[..|rs| - 1], peer, a, b)
        + if r.peer == peer && a <= r.now < b && LastGranted(l, prunes, rs) then 1 else 0
  }

  /** Calls arrive in the order of their times. */
  predicate Nondecreasing(rs: seq<Request>) {
    forall i, j | 0 <= i < j < |rs| :: rs[i].now <= rs[j].now
  }

  lemma NondecreasingInit(rs: seq<Request>)
    requires Nondecreasing(rs) && rs != []
    ensures Nondecreasing(rs[..|rs| - 1])
    ensures forall r <- rs[..|rs| - 1] :: r.now <= rs[|rs| - 1].now
  {
    var init := rs[..|rs| - 1];
    forall i, j | 0 <= i < j < |init|
      ensures init[i].now <= init[j].now
    {
      assert init[i] == rs[i] && init[j] == rs[j];
    }
  }

  /** What pruning took out was over by the last call. */
  ghost predicate OnlyPastGone(pruned: map<Peer, Window>, kept: map<Peer, Window>, now: Time) {
    && (forall p <- pruned :: p in kept && kept[p] == pruned[p])
    && (forall p <- kept :: p in pruned || kept[p].until <= now)
  }

  lemma {:induction false} PruningTakesThePast(l: Limit, rs: seq<Request>, now: Time)
    requires l.Valid() && Nondecreasing(rs) && forall r <- rs :: r.now <= now
    ensures OnlyPastGone(Table(l, true, rs), Table(l, false, rs), now)
  {
    if rs != [] {
      var init, r := rs[..|rs| - 1], rs[|rs| - 1];
      NondecreasingInit(rs);
      PruningTakesThePast(l, init, r.now);
      assert r in rs;
    }
  }

  /** Under a clock that does not go back, the limiter answers as one that never forgets a window. */
  lemma PruningChangesNoAnswer(l: Limit, rs: seq<Request>)
    requires l.Valid() && Nondecreasing(rs) && rs != []
    ensures LastGranted(l, true, rs) <==> LastGranted(l, false, rs)
  {
    NondecreasingInit(rs);
    PruningTakesThePast(l, rs[..|rs| - 1], rs[|rs| - 1].now);
  }

  lemma {:induction false} SameGrants(l: Limit, rs: seq<Request>, peer: Peer, a: Time, b: Time)
    requires l.Valid() && Nondecreasing(rs)
    ensures Grants(l, true, rs, peer, a, b) == Grants(l, false, rs, peer, a, b)
  {
    if rs != [] {
      NondecreasingInit(rs);
      PruningChangesNoAnswer(l, rs);
      SameGrants(l, rs[..|rs| - 1], peer, a, b);
    }
  }

  lemma {:induction false} GrantsSplit(l: Limit, prunes: bool, rs: seq<Request>, peer: Peer, a: Time, m: Time, b: Time)
    requires a <= m <= b
    ensures Grants(l, prunes, rs, peer, a, b) == Grants(l, prunes, rs, peer, a, m) + Grants(l, prunes, rs, peer, m, b)
  {
    if rs != [] {
      GrantsSplit(l, prunes, rs[..|rs| - 1], peer, a, m, b);
    }
  }

  /** No grant is later than the last call. */
  lemma {:induction false} GrantsEnd(l: Limit, prunes: bool, rs: seq<Request>, peer: Peer, a: Time, now: Time, b: Time)
    requires now < b && forall r <- rs :: r.now <= now
    ensures Grants(l, prunes, rs, peer, a, b) == Grants(l, prunes, rs, peer, a, now + 1)
  {
    if rs != [] {
      assert rs[|rs| - 1] in rs;
      GrantsEnd(l, prunes, rs[..|rs| - 1], peer, a, now, b);
    }
  }

  lemma {:induction false} GrantsNowhere(l: Limit, prunes: bool, rs: seq<Request>, peer: Peer, a: Time, b: Time)
    requires b <= a
    ensures Grants(l, prunes, rs, peer, a, b) == 0
  {
    if rs != [] {
      GrantsNowhere(l, prunes, rs[..|rs| - 1], peer, a, b);
    }
  }

  /**
   What the window of a peer says of the grants so far, with now no earlier than the last call: its
   count is what was granted since it began, the first as it began and none past its end, and less
   than a window's worth fell in the stretch before it that can share an interval with it.
   */
  ghost predicate Tells(l: Limit, rs: seq<Request>, peer: Peer, w: Window, now: Time) {
    var start := w.until - l.window;
    && start <= now && 1 <= w.count <= l.PerWindow()
    && Grants(l, false, rs, peer, start, now + 1) == w.count
    && Grants(l, false, rs, peer, start + 1, now + 1) <= w.count - 1
    && Grants(l, false, rs, peer, w.until, now + 1) == 0
    && Grants(l, false, rs, peer, start - l.window + 1, start) <= l.PerWindow() - 1
  }

  ghost predicate TableTells(l: Limit, rs: seq<Request>, peer: Peer, now: Time) {
    var t := Table(l, false, rs);
    if peer in t then Tells(l, rs, peer, t[peer], now)
    else forall a, b :: Grants(l, false, rs, peer, a, b) == 0
  }

  lemma OpeningTells(l: Limit, rs: seq<Request>)
    requires l.Valid() && rs != []
    requires var init, r := rs[..|rs| - 1], rs[|rs| - 1];
      && (forall q <- init :: q.now <= r.now) && TableTells(l, init, r.peer, r.now)
      && Opens(Table(l, false, init), r)
    ensures TableTells(l, rs, rs[|rs| - 1].peer, rs[|rs| - 1].now)
  {
    var init, r := rs[..|rs| - 1], rs[|rs| - 1];
    var t := Table(l, false, init);
    var now := r.now;
    assert Grants(l, false, init, r.peer, now, now + 1) == 0 &&
      Grants(l, false, init, r.peer, now - l.window + 1, now) <= l.PerWindow() - 1 by {
      if r.peer in t {
        var w := t[r.peer];
        var start := w.until - l.window;
        GrantsSplit(l, false, init, r.peer, w.until, now, now + 1);
        GrantsSplit(l, false, init, r.peer, start + 1, now - l.window + 1, now + 1);
        GrantsSplit(l, false, init, r.peer, now - l.window + 1, now, now + 1);
      }
    }
    GrantsNowhere(l, false, init, r.peer, now + 1, now + 1);
    GrantsNowhere(l, false, init, r.peer, now + l.window, now + 1);
  }

  /** A request that opens no window of this peer counts in the one that stands, or not at all. */
  lemma OtherwiseTells(l: Limit, rs: seq<Request>, peer: Peer)
    requires l.Valid() && rs != []
    requires var init, r := rs[..|rs| - 1], rs[|rs| - 1];
      TableTells(l, init, peer, r.now) && !(r.peer == peer && Opens(Table(l, false, init), r))
    ensures TableTells(l, rs, peer, rs[|rs| - 1].now)
  {
  }

  lemma {:induction false} TheTableTells(l: Limit, rs: seq<Request>, peer: Peer, now: Time)
    requires l.Valid() && Nondecreasing(rs) && forall r <- rs :: r.now <= now
    ensures TableTells(l, rs, peer, now)
  {
    if rs != [] {
      var init, r := rs[..|rs| - 1], rs[|rs| - 1];
      NondecreasingInit(rs);
      TheTableTells(l, init, peer, r.now);
      if r.peer == peer && Opens(Table(l, false, init), r) {
        OpeningTells(l, rs);
      } else {
        OtherwiseTells(l, rs, peer);
      }
      assert r in rs;
      TellsLater(l, rs, peer, r.now, now);
    }
  }

  /** The clock going on with no call changes nothing. */
  lemma TellsLater(l: Limit, rs: seq<Request>, peer: Peer, now: Time, later: Time)
    requires now <= later && (forall r <- rs :: r.now <= now) && TableTells(l, rs, peer, now)
    ensures TableTells(l, rs, peer, later)
  {
    var t := Table(l, false, rs);
    if peer in t {
      var start := t[peer].until - l.window;
      GrantsEnd(l, false, rs, peer, start, now, later + 1);
      GrantsEnd(l, false, rs, peer, start + 1, now, later + 1);
      GrantsEnd(l, false, rs, peer, t[peer].until, now, later + 1);
    }
  }

  /**
   A request is refused exactly where its peer's window still stands and has granted what a window
   grants, counted over the calls themselves.
   */
  lemma RefusedExactlyWhenSpent(l: Limit, rs: seq<Request>)
    requires l.Valid() && Nondecreasing(rs) && rs != []
    ensures var init, r := rs[..|rs| - 1], rs[|rs| - 1];
      var t := Table(l, false, init);
      !LastGranted(l, true, rs) <==>
        && r.peer in t && r.now < t[r.peer].until
        && Grants(l, true, init, r.peer, t[r.peer].until - l.window, r.now + 1) >= l.PerWindow()
  {
    var init, r := rs[..|rs| - 1], rs[|rs| - 1];
    NondecreasingInit(rs);
    PruningChangesNoAnswer(l, rs);
    TheTableTells(l, init, r.peer, r.now);
    var t := Table(l, false, init);
    if r.peer in t {
      SameGrants(l, init, r.peer, t[r.peer].until - l.window, r.now + 1);
    }
  }

  /** A stretch that holds the last call shares at most the window before with it. */
  lemma StretchOverTheLast(l: Limit, rs: seq<Request>, peer: Peer, w: Window, now: Time, a: Time)
    requires l.Valid() && Tells(l, rs, peer, w, now) && (forall r <- rs :: r.now <= now)
    requires a <= now < a + l.window
    ensures Grants(l, false, rs, peer, a, a + l.window) <= 2 * l.PerWindow() - 1
  {
    var start := w.until - l.window;
    GrantsEnd(l, false, rs, peer, start, now, a + l.window);
    if a <= start {
      GrantsSplit(l, false, rs, peer, a, start, a + l.window);
      GrantsSplit(l, false, rs, peer, start - l.window + 1, a, start);
    } else {
      GrantsSplit(l, false, rs, peer, start, a, a + l.window);
    }
  }

  lemma {:induction false} TwiceAtMost(l: Limit, rs: seq<Request>, peer: Peer, a: Time)
    requires l.Valid() && Nondecreasing(rs)
    ensures Grants(l, false, rs, peer, a, a + l.window) <= 2 * l.PerWindow() - 1
  {
    if rs != [] {
      var r := rs[|rs| - 1];
      NondecreasingInit(rs);
      TwiceAtMost(l, rs[..|rs| - 1], peer, a);
      if r.peer == peer && a <= r.now < a + l.window && LastGranted(l, false, rs) {
        TheTableTells(l, rs, peer, r.now);
        StretchOverTheLast(l, rs, peer, Table(l, false, rs)[peer], r.now, a);
      }
    }
  }

  /** In any stretch as long as a window, wherever it begins, a peer is granted less than two windows' worth. */
  lemma AnyStretchIsBounded(l: Limit, rs: seq<Request>, peer: Peer, a: Time)
    requires l.Valid() && Nondecreasing(rs)
    ensures Grants(l, true, rs, peer, a, a + l.window) <= 2 * l.PerWindow() - 1
  {
    TwiceAtMost(l, rs, peer, a);
    SameGrants(l, rs, peer, a, a + l.window);
  }

  lemma GrantsSnoc(l: Limit, rs: seq<Request>, r: Request, a: Time, b: Time)
    ensures Table(l, true, rs + [r]) == After(l, true, Table(l, true, rs), r)
    ensures Grants(l, true, rs + [r], r.peer, a, b) == Grants(l, true, rs, r.peer, a, b)
      + if a <= r.now < b && Granted(l, Table(l, true, rs), r) then 1 else 0
  {
    assert (rs + [r])[..|rs + [r]| - 1] == rs;
  }

  /** The calls so far end at a time, inside a window that granted so many of them. */
  ghost predicate Stands(l: Limit, rs: seq<Request>, peer: Peer, now: Time, w: Window) {
    && Nondecreasing(rs) && (forall r <- rs :: r.now <= now)
    && peer in Table(l, true, rs) && Table(l, true, rs)[peer] == w && now < w.until
  }

  lemma NondecreasingSnoc(rs: seq<Request>, r: Request)
    requires Nondecreasing(rs) && forall q <- rs :: q.now <= r.now
    ensures Nondecreasing(rs + [r]) && forall q <- rs + [r] :: q.now <= r.now
  {
  }

  /** A window that stands grants up to its limit at once. */
  lemma {:induction false} Spend(l: Limit, rs: seq<Request>, peer: Peer, now: Time, w: Window, k: nat, a: Time, b: Time)
    returns (more: seq<Request>)
    requires Stands(l, rs, peer, now, w) && w.count + k <= l.PerWindow() && (k == 0 || l.most >= 1)
    ensures Stands(l, more, peer, now, w.(count := w.count + k))
    ensures Grants(l, true, more, peer, a, b) == Grants(l, true, rs, peer, a, b) + if a <= now < b then k else 0
    decreases k
  {
    if k == 0 {
      more := rs;
    } else {
      var r := Request(peer, now);
      GrantsSnoc(l, rs, r, a, b);
      NondecreasingSnoc(rs, r);
      more := Spend(l, rs + [r], peer, now, w.(count := w.count + 1), k - 1, a, b);
    }
  }

  lemma OpenAt(l: Limit, rs: seq<Request>, peer: Peer, now: Time, a: Time, b: Time) returns (more: seq<Request>)
    requires l.Valid() && Nondecreasing(rs) && (forall r <- rs :: r.now <= now)
    requires Opens(Table(l, true, rs), Request(peer, now))
    ensures Stands(l, more, peer, now, Window(1, now + l.window))
    ensures Grants(l, true, more, peer, a, b) == Grants(l, true, rs, peer, a, b) + if a <= now < b then 1 else 0
  {
    var r := Request(peer, now);
    GrantsSnoc(l, rs, r, a, b);
    NondecreasingSnoc(rs, r);
    more := rs + [r];
  }

  /**
   The bound is reached for every limit, so a limit does not hold over every stretch: one grant opens a
   window, the rest of it is granted at its last moment, and a whole window the moment after.
   */
  lemma TheBoundIsReached(l: Limit, peer: Peer) returns (rs: seq<Request>)
    requires l.window >= 2
    ensures Nondecreasing(rs) && Grants(l, true, rs, peer, 1, 1 + l.window) == 2 * l.PerWindow() - 1
  {
    var last, b := l.window - 1, 1 + l.window;
    rs := OpenAt(l, [], peer, 0, 1, b);
    rs := Spend(l, rs, peer, last, Window(1, l.window), l.PerWindow() - 1, 1, b);
    rs := OpenAt(l, rs, peer, l.window, 1, b);
    rs := Spend(l, rs, peer, l.window, Window(1, 2 * l.window), l.PerWindow() - 1, 1, b);
  }
}
