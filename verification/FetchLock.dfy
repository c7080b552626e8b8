/** One copy of an image per member and digest, and so many per member, refused rather than waited for. */
module FetchLocks {
  import opened Collections

  type Member = string
  type Digest = string

  datatype Verdict = Claimed | InFlight | Busy

  datatype Table = Table(held: set<string>, per: map<Member, int>)

  /** The one string a claim is held under. */
  function Key(member: Member, digest: Digest): string {
    member + " " + digest
  }

  function PerOf(t: Table, member: Member): int {
    if member in t.per then t.per[member] else 0
  }

  function Answer(t: Table, member: Member, digest: Digest, max: int): Verdict {
    if Key(member, digest) in t.held then InFlight
    else if max > 0 && PerOf(t, member) >= max then Busy
    else Claimed
  }

  function Taken(t: Table, member: Member, digest: Digest): Table {
    Table(t.held + {Key(member, digest)}, t.per[member := PerOf(t, member) + 1])
  }

  function Released(t: Table, member: Member, digest: Digest): Table {
    var n := PerOf(t, member) - 1;
    Table(t.held - {Key(member, digest)}, if n <= 0 then t.per - {member} else t.per[member := n])
  }

  class FetchLock {
    var held: set<string>
    var per: map<Member, int>

    ghost function View(): Table
      reads this
    {
      Table(held, per)
    }

    constructor ()
      ensures View() == Table({}, map[])
    {
      held, per := {}, map[];
    }

    method Take(member: Member, digest: Digest, max: int) returns (verdict: Verdict)
      modifies this
      ensures verdict == Answer(old(View()), member, digest, max)
      ensures View() == if verdict.Claimed? then Taken(old(View()), member, digest) else old(View())
    {
      var key := Key(member, digest);
      if key in held {
        return InFlight;
      }
      var copies := if member in per then per[member] else 0;
      if max > 0 && copies >= max {
        return Busy;
      }
      held := held + {key};
      per := per[member := copies + 1];
      verdict := Claimed;
    }

    /** What a claim that was taken is given back by. */
    method Release(member: Member, digest: Digest)
      modifies this
      ensures View() == Released(old(View()), member, digest)
    {
      held := held - {Key(member, digest)};
      var copies := (if member in per then per[member] else 0) - 1;
      per := per[member := copies];
      if copies <= 0 {
        per := per - {member};
      }
    }
  }

  datatype Claim = Claim(member: Member, digest: Digest)

  datatype Event = Take(claim: Claim) | Release(claim: Claim)

  /** claims are the copies under way: taken, and not released. */
  datatype State = State(table: Table, claims: set<Claim>)

  const START := State(Table({}, map[]), {})

  /** A copy is released once, by the call that took it. Nothing is asked of a member's name here. */
  predicate Enabled(s: State, e: Event) {
    e.Release? ==> e.claim in s.claims
  }

  function Apply(s: State, e: Event, max: int): State {
    match e
    case Take(c) =>
      if Answer(s.table, c.member, c.digest, max).Claimed? then
        State(Taken(s.table, c.member, c.digest), s.claims + {c})
      else s
    case Release(c) => State(Released(s.table, c.member, c.digest), s.claims - {c})
  }

  function Run(max: int, es: seq<Event>): Option<State> {
    if es == [] then Some(START)
    else
      match Run(max, es[..|es| - 1])
      case None => None
      case Some(s) => if Enabled(s, es[|es| - 1]) then Some(Apply(s, es[|es| - 1], max)) else None
  }

  /** The names kitbash gives its members carry no space. */
  predicate Named(es: seq<Event>) {
    forall e <- es :: ' ' !in e.claim.member
  }

  lemma SpaceAfterTheMember(member: Member, digest: Digest)
    requires ' ' !in member
    ensures var key := Key(member, digest);
      && |member| < |key| && key[|member|] == ' ' && (forall i | 0 <= i < |member| :: key[i] != ' ')
      && key[..|member|] == member && key[|member| + 1..] == digest
  {
  }

  /** No two claims share a key: the first space ends the member's name. */
  lemma KeysAreApart(a: Member, d: Digest, b: Member, e: Digest)
    requires ' ' !in a && ' ' !in b && Key(a, d) == Key(b, e)
    ensures a == b && d == e
  {
    SpaceAfterTheMember(a, d);
    SpaceAfterTheMember(b, e);
    assert |a| == |b|;
  }

  function CopiesOf(claims: set<Claim>, member: Member): set<Claim> {
    set c | c in claims && c.member == member
  }

  ghost predicate KeysTell(s: State) {
    && (forall c <- s.claims :: ' ' !in c.member && Key(c.member, c.digest) in s.table.held)
    && (forall key <- s.table.held :: exists c <- s.claims :: Key(c.member, c.digest) == key)
  }

  ghost predicate CountTells(s: State, max: int, m: Member) {
    && PerOf(s.table, m) == |CopiesOf(s.claims, m)|
    && (m in s.table.per ==> s.table.per[m] > 0)
    && (max > 0 ==> PerOf(s.table, m) <= max)
  }

  lemma TakeKeepsKeys(s: State, c: Claim, max: int)
    requires KeysTell(s) && ' ' !in c.member
    ensures KeysTell(Apply(s, Take(c), max))
  {
    var s' := Apply(s, Take(c), max);
    forall key <- s'.table.held
      ensures exists d <- s'.claims :: Key(d.member, d.digest) == key
    {
      if key in s.table.held {
        var d :| d in s.claims && Key(d.member, d.digest) == key;
        assert d in s'.claims;
      } else {
        assert c in s'.claims;
      }
    }
  }

  lemma TakeKeepsCount(s: State, c: Claim, max: int, m: Member)
    requires KeysTell(s) && CountTells(s, max, m)
    ensures CountTells(Apply(s, Take(c), max), max, m)
  {
    if Answer(s.table, c.member, c.digest, max).Claimed? {
      TakeCounts(s, c, m);
    }
  }

  lemma TakeCounts(s: State, c: Claim, m: Member)
    requires c !in s.claims
    ensures |CopiesOf(s.claims + {c}, m)| == |CopiesOf(s.claims, m)| + if m == c.member then 1 else 0
  {
    assert CopiesOf(s.claims + {c}, m) == CopiesOf(s.claims, m) + if m == c.member then {c} else {};
  }

  lemma ReleaseCounts(s: State, c: Claim, m: Member)
    requires c in s.claims
    ensures |CopiesOf(s.claims - {c}, m)| == |CopiesOf(s.claims, m)| - if m == c.member then 1 else 0
  {
    if m == c.member {
      assert c in CopiesOf(s.claims, m);
    }
    assert CopiesOf(s.claims - {c}, m) == CopiesOf(s.claims, m) - if m == c.member then {c} else {};
  }

  /** The key a release takes away is no other claim's. */
  lemma ReleaseKeepsKeys(s: State, c: Claim, max: int)
    requires KeysTell(s) && c in s.claims
    ensures KeysTell(Apply(s, Release(c), max))
  {
    var s' := Apply(s, Release(c), max);
    forall d <- s'.claims
      ensures Key(d.member, d.digest) in s'.table.held
    {
      if Key(d.member, d.digest) == Key(c.member, c.digest) {
        KeysAreApart(d.member, d.digest, c.member, c.digest);
      }
    }
    forall key <- s'.table.held
      ensures exists d <- s'.claims :: Key(d.member, d.digest) == key
    {
      var d :| d in s.claims && Key(d.member, d.digest) == key;
      assert d in s'.claims;
    }
  }

  lemma ReleaseKeepsCount(s: State, c: Claim, max: int, m: Member)
    requires CountTells(s, max, m) && c in s.claims
    ensures CountTells(Apply(s, Release(c), max), max, m)
  {
    ReleaseCounts(s, c, m);
  }

  lemma {:induction false} RunKeeps(max: int, es: seq<Event>, m: Member)
    requires Run(max, es).Some? && Named(es)
    ensures KeysTell(Run(max, es).value) && CountTells(Run(max, es).value, max, m)
  {
    if es != [] {
      var init, e := es[..|es| - 1], es[|es| - 1];
      assert e in es;
      RunKeeps(max, init, m);
      var s := Run(max, init).value;
      match e {
        case Take(c) =>
          TakeKeepsKeys(s, c, max);
          TakeKeepsCount(s, c, max, m);
        case Release(c) =>
          ReleaseKeepsKeys(s, c, max);
          ReleaseKeepsCount(s, c, max, m);
      }
    }
  }

  /** A member's count is the copies they have under way, within the cap, and nobody with none is kept. */
  lemma CountsAreExact(max: int, es: seq<Event>, member: Member)
    requires Run(max, es).Some? && Named(es)
    ensures var s := Run(max, es).value;
      && PerOf(s.table, member) == |CopiesOf(s.claims, member)|
      && (max > 0 ==> |CopiesOf(s.claims, member)| <= max)
      && (member in s.table.per <==> CopiesOf(s.claims, member) != {})
  {
    RunKeeps(max, es, member);
  }

  /** A copy is refused as under way exactly where it is, and as one too many exactly where it would be. */
  lemma AnswersAreRight(max: int, es: seq<Event>, c: Claim)
    requires Run(max, es).Some? && Named(es) && ' ' !in c.member
    ensures var s := Run(max, es).value;
      Answer(s.table, c.member, c.digest, max) ==
        if c in s.claims then InFlight
        else if max > 0 && |CopiesOf(s.claims, c.member)| >= max then Busy
        else Claimed
  {
    RunKeeps(max, es, c.member);
    var s := Run(max, es).value;
    if Key(c.member, c.digest) in s.table.held {
      var d :| d in s.claims && Key(d.member, d.digest) == Key(c.member, c.digest);
      KeysAreApart(d.member, d.digest, c.member, c.digest);
    }
  }

  /** A name with a space in it would be refused another member's copy. */
  lemma SpacesWouldCollide() returns (es: seq<Event>, c: Claim)
    ensures Run(2, es).Some? && c !in Run(2, es).value.claims && |CopiesOf(Run(2, es).value.claims, c.member)| == 0
    ensures Answer(Run(2, es).value.table, c.member, c.digest, 2) == InFlight
  {
    var first := Claim("a", "b c");
    c := Claim("a b", "c");
    es := [Take(first)];
    assert es[..0] == [];
    assert Run(2, es) == Some(Apply(START, Take(first), 2));
    assert Key(c.member, c.digest) == Key(first.member, first.digest);
    assert CopiesOf(Run(2, es).value.claims, c.member) == {};
  }
}
