/** The chain as the indexer sees it: logs in chain order, paged range reads, and what a reader of consecutive pages gets. */
module IndexerChain {
  type Address = nat
  type MemberId = nat

  datatype EventKind =
    | MemberRegistered(member: MemberId, contract: Address, attestor: nat, xKey: nat, wgKey: nat, registeredAt: nat)
    | WgKeyPublished(member: MemberId, wgKey: nat)
    | MessageSent(sender: MemberId, recipient: MemberId, envelope: nat)
    | CskCommitmentSet(commitment: nat)

  datatype Log = Log(cluster: Address, block: nat, index: nat, kind: EventKind)

  datatype Deployment = Deployment(cluster: Address, block: nat, index: nat)

  /** A message concerns its recipient alone; everything else concerns every member of the cluster. */
  predicate RelevantFor(k: EventKind, m: MemberId) {
    k.MessageSent? ==> k.recipient == m
  }

  predicate Precedes(a: Log, b: Log) {
    a.block < b.block || (a.block == b.block && a.index < b.index)
  }

  predicate ChainOrdered(chain: seq<Log>) {
    forall i, j | 0 <= i < j < |chain| :: Precedes(chain[i], chain[j])
  }

  // ---------------------------------------------------------------- block arithmetic

  const U64_MAX: nat := 0xFFFF_FFFF_FFFF_FFFF

  function Min(a: nat, b: nat): nat { if a <= b then a else b }
  function AtLeast(a: nat, b: nat): nat { if a >= b then a else b }

  function SaturatingSucc(n: nat): nat {
    Min(n + 1, U64_MAX)
  }

  /** Where event and discovery scans resume: past the watermark, never below the factory's first block. */
  function ScanStart(last: nat, floor: nat): nat {
    AtLeast(SaturatingSucc(last), floor)
  }

  /** The inclusive ranges covering [start, head]. */
  function Pages(start: nat, head: nat, chunk: nat): seq<(nat, nat)>
    decreases head + 1 - start
  {
    var c := AtLeast(chunk, 1);
    if start > head then []
    else [(start, Min(start + c - 1, head))] + Pages(Min(start + c - 1, head) + 1, head, chunk)
  }

  /** The pages taken so far and those still to come make up the whole. */
  predicate Paged(taken: seq<(nat, nat)>, from: nat, start: nat, head: nat, chunk: nat) {
    taken + Pages(from, head, chunk) == Pages(start, head, chunk)
  }

  lemma PagedNext(taken: seq<(nat, nat)>, from: nat, start: nat, head: nat, chunk: nat)
    requires from <= head && Paged(taken, from, start, head, chunk)
    ensures var to := Min(from + AtLeast(chunk, 1) - 1, head);
            from <= to <= head && Paged(taken + [(from, to)], to + 1, start, head, chunk)
  {
    var to := Min(from + AtLeast(chunk, 1) - 1, head);
    var rest := Pages(to + 1, head, chunk);
    assert taken + ([(from, to)] + rest) == taken + [(from, to)] + rest;
  }

  /** The iterator of the source, run to its end. The bound keeps its u64 sums from overflowing. */
  method ScanRanges(start: nat, head: nat, chunk: nat) returns (ranges: seq<(nat, nat)>)
    requires head + AtLeast(chunk, 1) <= U64_MAX
    ensures ranges == Pages(start, head, chunk)
    ensures Consecutive(ranges, start, head)
  {
    var from := start;
    ranges := [];
    while from <= head
      invariant Paged(ranges, from, start, head, chunk)
      decreases head + 1 - from
    {
      PagedNext(ranges, from, start, head, chunk);
      var to := Min(from + AtLeast(chunk, 1) - 1, head);
      ranges := ranges + [(from, to)];
      from := to + 1;
    }
    assert ranges + [] == ranges;
    PagesAreConsecutive(start, head, chunk);
  }

  /** A page within [start, head] no longer than the chunk. */
  predicate GoodPage(p: (nat, nat), start: nat, head: nat, chunk: nat) {
    start <= p.0 <= p.1 <= head && p.1 - p.0 < AtLeast(chunk, 1)
  }

  predicate Holds(p: (nat, nat), block: nat) {
    p.0 <= block <= p.1
  }

  /** Page i ends before page j begins. */
  predicate Apart(ps: seq<(nat, nat)>, i: nat, j: nat)
    requires i < |ps| && j < |ps|
  {
    ps[i].1 < ps[j].0
  }

  lemma {:induction false} PagesAreGood(start: nat, head: nat, chunk: nat)
    ensures forall p | p in Pages(start, head, chunk) :: GoodPage(p, start, head, chunk)
    decreases head + 1 - start
  {
    if start <= head {
      var to := Min(start + AtLeast(chunk, 1) - 1, head);
      PagesAreGood(to + 1, head, chunk);
      forall p | p in Pages(start, head, chunk) ensures GoodPage(p, start, head, chunk) {
        if p != (start, to) { assert GoodPage(p, to + 1, head, chunk); }
      }
    }
  }

  lemma {:induction false} PagesHoldAll(start: nat, head: nat, chunk: nat, block: nat)
    requires start <= block <= head
    ensures exists p :: p in Pages(start, head, chunk) && Holds(p, block)
    decreases head + 1 - start
  {
    var to := Min(start + AtLeast(chunk, 1) - 1, head);
    var ps := Pages(start, head, chunk);
    assert ps == [(start, to)] + Pages(to + 1, head, chunk);
    if block <= to {
      assert ps[0] in ps && Holds(ps[0], block);
    } else {
      PagesHoldAll(to + 1, head, chunk, block);
      var p :| p in Pages(to + 1, head, chunk) && Holds(p, block);
      assert p in ps;
    }
  }

  lemma {:induction false} PagesApart(start: nat, head: nat, chunk: nat, i: nat, j: nat)
    requires i < j < |Pages(start, head, chunk)|
    ensures Apart(Pages(start, head, chunk), i, j)
    decreases head + 1 - start
  {
    var to := Min(start + AtLeast(chunk, 1) - 1, head);
    var ps, rest := Pages(start, head, chunk), Pages(to + 1, head, chunk);
    assert ps == [(start, to)] + rest;
    if i == 0 {
      PagesAreGood(to + 1, head, chunk);
      assert ps[j] == rest[j - 1] && GoodPage(rest[j - 1], to + 1, head, chunk);
    } else {
      PagesApart(to + 1, head, chunk, i - 1, j - 1);
      assert ps[i] == rest[i - 1] && ps[j] == rest[j - 1];
    }
  }

  /** Pages follow one another without a gap, from the first block to the head. */
  predicate Consecutive(ps: seq<(nat, nat)>, start: nat, head: nat) {
    && (ps == [] ==> start > head)
    && (ps != [] ==> ps[0].0 == start && ps[|ps| - 1].1 == head)
    && forall i | 0 <= i < |ps| :: ps[i].0 <= ps[i].1 <= head && (0 < i ==> ps[i].0 == ps[i - 1].1 + 1)
  }

  lemma {:induction false} PagesAreConsecutive(start: nat, head: nat, chunk: nat)
    ensures Consecutive(Pages(start, head, chunk), start, head)
    decreases head + 1 - start
  {
    if start <= head {
      var to := Min(start + AtLeast(chunk, 1) - 1, head);
      var rest := Pages(to + 1, head, chunk);
      PagesAreConsecutive(to + 1, head, chunk);
      var ps := Pages(start, head, chunk);
      assert ps == [(start, to)] + rest;
      forall i | 0 <= i < |ps| ensures ps[i].0 <= ps[i].1 <= head && (0 < i ==> ps[i].0 == ps[i - 1].1 + 1) {
        if 0 < i { assert ps[i] == rest[i - 1]; }
        if 1 < i { assert ps[i - 1] == rest[i - 2]; }
      }
    }
  }

  /** A block of the range lies in exactly one page, a block outside it in none, and no page is longer than the chunk. */
  lemma PagesCoverOnce(start: nat, head: nat, chunk: nat, block: nat)
    ensures start <= block <= head <==> exists p :: p in Pages(start, head, chunk) && Holds(p, block)
    ensures forall p | p in Pages(start, head, chunk) :: GoodPage(p, start, head, chunk)
    ensures forall i: nat, j: nat | i < j < |Pages(start, head, chunk)| :: Apart(Pages(start, head, chunk), i, j)
  {
    PagesAreGood(start, head, chunk);
    if start <= block <= head { PagesHoldAll(start, head, chunk, block); }
    if p :| p in Pages(start, head, chunk) && Holds(p, block) { assert GoodPage(p, start, head, chunk); }
    forall i: nat, j: nat | i < j < |Pages(start, head, chunk)| ensures Apart(Pages(start, head, chunk), i, j) {
      PagesApart(start, head, chunk, i, j);
    }
  }

  // ---------------------------------------------------------------- range reads

  /** Who a selection of logs is for: a set of clusters, or one subscribed member. */
  datatype Audience = Clusters(clusters: set<Address>) | Member(cluster: Address, member: MemberId)

  predicate Concerns(a: Audience, l: Log) {
    match a
    case Clusters(cs) => l.cluster in cs
    case Member(c, m) => l.cluster == c && RelevantFor(l.kind, m)
  }

  /** The logs for an audience in blocks after lo up to hi, in chain order. */
  function Select(chain: seq<Log>, a: Audience, lo: int, hi: int): seq<Log> {
    if chain == [] then []
    else
      Select(chain[..|chain| - 1], a, lo, hi) +
      var l := chain[|chain| - 1];
      if Concerns(a, l) && lo < l.block <= hi then [l] else []
  }

  predicate Selected(chain: seq<Log>, a: Audience, lo: int, hi: int, l: Log) {
    l in chain && Concerns(a, l) && lo < l.block <= hi
  }

  lemma {:induction false} SelectMembers(chain: seq<Log>, a: Audience, lo: int, hi: int, l: Log)
    ensures l in Select(chain, a, lo, hi) <==> Selected(chain, a, lo, hi, l)
  {
    if chain != [] {
      var front := chain[..|chain| - 1];
      assert chain == front + [chain[|chain| - 1]];
      SelectMembers(front, a, lo, hi, l);
    }
  }

  predicate NoneAfter(chain: seq<Log>, block: int) {
    forall l | l in chain :: l.block <= block
  }

  lemma {:induction false} NothingAfter(chain: seq<Log>, a: Audience, lo: int, hi: int)
    requires NoneAfter(chain, lo)
    ensures Select(chain, a, lo, hi) == []
  {
    if chain != [] {
      assert chain[|chain| - 1] in chain;
      NothingAfter(chain[..|chain| - 1], a, lo, hi);
    }
  }

  lemma LastIsLatest(chain: seq<Log>)
    requires chain != [] && ChainOrdered(chain)
    ensures NoneAfter(chain, chain[|chain| - 1].block)
  {
    forall l | l in chain ensures l.block <= chain[|chain| - 1].block {
      var i :| 0 <= i < |chain| && chain[i] == l;
      if i < |chain| - 1 { assert Precedes(chain[i], chain[|chain| - 1]); }
    }
  }

  /** Reading two adjacent ranges one after the other is reading their union. */
  lemma {:induction false} SelectAdjacent(chain: seq<Log>, a: Audience, lo: int, mid: int, hi: int)
    requires ChainOrdered(chain) && lo <= mid <= hi
    ensures Select(chain, a, lo, mid) + Select(chain, a, mid, hi) == Select(chain, a, lo, hi)
  {
    if chain != [] {
      var front, l := chain[..|chain| - 1], chain[|chain| - 1];
      SelectAdjacent(front, a, lo, mid, hi);
      if l.block <= mid {
        LastIsLatest(chain);
        NothingAfter(chain, a, mid, hi);
        NothingAfter(front, a, mid, hi);
      }
    }
  }

  /** Blocks without logs may be skipped. */
  lemma {:induction false} SelectSkips(chain: seq<Log>, a: Audience, lo: int, lo': int, hi: int)
    requires lo <= lo' && forall l | l in chain && Concerns(a, l) :: l.block > lo'
    ensures Select(chain, a, lo, hi) == Select(chain, a, lo', hi)
  {
    if chain != [] {
      assert chain[|chain| - 1] in chain;
      SelectSkips(chain[..|chain| - 1], a, lo, lo', hi);
    }
  }

  lemma {:induction false} NothingBefore(chain: seq<Log>, a: Audience, lo: int, hi: int)
    requires forall l | l in chain && Concerns(a, l) :: l.block > hi
    ensures Select(chain, a, lo, hi) == []
  {
    if chain != [] {
      assert chain[|chain| - 1] in chain;
      NothingBefore(chain[..|chain| - 1], a, lo, hi);
    }
  }

  lemma {:induction false} NothingBetween(chain: seq<Log>, a: Audience, block: int)
    ensures Select(chain, a, block, block) == []
  {
    if chain != [] { NothingBetween(chain[..|chain| - 1], a, block); }
  }

  // ---------------------------------------------------------------- shares of a batch

  /** The part of a batch of logs that an audience gets. */
  function Filter(logs: seq<Log>, a: Audience): seq<Log> {
    if logs == [] then []
    else
      Filter(logs[..|logs| - 1], a) +
      var l := logs[|logs| - 1];
      if Concerns(a, l) then [l] else []
  }

  lemma {:induction false} FilterConcat(x: seq<Log>, y: seq<Log>, a: Audience)
    ensures Filter(x + y, a) == Filter(x, a) + Filter(y, a)
  {
    if y == [] {
      assert x + y == x;
    } else {
      var front := y[..|y| - 1];
      FilterConcat(x, front, a);
      assert (x + y)[..|x + y| - 1] == x + front;
    }
  }

  predicate Within(a: Audience, cs: set<Address>) {
    match a
    case Clusters(s) => s <= cs
    case Member(c, _) => c in cs
  }

  /** A page read for many clusters and then filtered is the page read for the one audience. */
  lemma {:induction false} FilterSelect(chain: seq<Log>, cs: set<Address>, lo: int, hi: int, a: Audience)
    requires Within(a, cs)
    ensures Filter(Select(chain, Clusters(cs), lo, hi), a) == Select(chain, a, lo, hi)
  {
    if chain != [] {
      var front, l := chain[..|chain| - 1], chain[|chain| - 1];
      FilterSelect(front, cs, lo, hi, a);
      var s := Select(front, Clusters(cs), lo, hi);
      if Concerns(Clusters(cs), l) && lo < l.block <= hi {
        assert (s + [l])[..|s|] == s;
      } else {
        assert Select(chain, Clusters(cs), lo, hi) == s;
      }
    }
  }

  lemma {:induction false} FilterSelectOutside(chain: seq<Log>, cs: set<Address>, lo: int, hi: int, c: Address)
    requires c !in cs
    ensures Filter(Select(chain, Clusters(cs), lo, hi), Clusters({c})) == []
  {
    if chain != [] {
      var front, l := chain[..|chain| - 1], chain[|chain| - 1];
      FilterSelectOutside(front, cs, lo, hi, c);
      var s := Select(front, Clusters(cs), lo, hi);
      if Concerns(Clusters(cs), l) && lo < l.block <= hi {
        assert (s + [l])[..|s|] == s;
      } else {
        assert Select(chain, Clusters(cs), lo, hi) == s;
      }
    }
  }

  lemma {:induction false} FilterMembers(logs: seq<Log>, a: Audience, l: Log)
    ensures l in Filter(logs, a) <==> l in logs && Concerns(a, l)
  {
    if logs != [] {
      var front := logs[..|logs| - 1];
      assert logs == front + [logs[|logs| - 1]];
      FilterMembers(front, a, l);
    }
  }
}
