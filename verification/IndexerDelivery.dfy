/** Live delivery: what one subscriber's stream holds after any number of pages, sends and a failed send. */
module IndexerDelivery {
  import opened IndexerChain

  datatype Delivery = Pushed(log: Log) | Checkpoint(block: nat)

  /** A subscription starts at the indexed watermark of the moment it is registered. */
  datatype Subscription = Subscription(cluster: Address, member: MemberId, checkpoints: bool, attachedAt: nat)

  /** live is false once a send failed: the channel is closed or the overflow flag is latched. */
  datatype Stream = Stream(sub: Subscription, delivered: seq<Delivery>, live: bool)

  function PushesOf(ds: seq<Delivery>): seq<Log> {
    if ds == [] then []
    else
      PushesOf(ds[..|ds| - 1]) +
      match ds[|ds| - 1]
      case Pushed(l) => [l]
      case Checkpoint(_) => []
  }

  lemma {:induction false} PushesConcat(x: seq<Delivery>, y: seq<Delivery>)
    ensures PushesOf(x + y) == PushesOf(x) + PushesOf(y)
  {
    if y == [] {
      assert x + y == x;
    } else {
      PushesConcat(x, y[..|y| - 1]);
      assert (x + y)[..|x + y| - 1] == x + y[..|y| - 1];
    }
  }

  // ---------------------------------------------------------------- what is due

  function DueLog(l: Log, sub: Subscription): seq<Delivery> {
    if Concerns(Member(sub.cluster, sub.member), l) then [Pushed(l)] else []
  }

  function DuePushes(logs: seq<Log>, sub: Subscription): seq<Delivery> {
    if logs == [] then [] else DuePushes(logs[..|logs| - 1], sub) + DueLog(logs[|logs| - 1], sub)
  }

  function DueCheckpoint(clusters: set<Address>, through: nat, sub: Subscription): seq<Delivery> {
    if sub.checkpoints && sub.cluster in clusters then [Checkpoint(through)] else []
  }

  /** What one dispatched page owes a subscriber: its logs in order, then one checkpoint. */
  function Due(logs: seq<Log>, clusters: set<Address>, through: nat, sub: Subscription): seq<Delivery> {
    DuePushes(logs, sub) + DueCheckpoint(clusters, through, sub)
  }

  lemma {:induction false} DuePushesOnlyPush(logs: seq<Log>, sub: Subscription)
    ensures forall d | d in DuePushes(logs, sub) :: d.Pushed?
    ensures PushesOf(DuePushes(logs, sub)) == Filter(logs, Member(sub.cluster, sub.member))
  {
    if logs != [] {
      var front, l := logs[..|logs| - 1], logs[|logs| - 1];
      DuePushesOnlyPush(front, sub);
      PushesConcat(DuePushes(front, sub), DueLog(l, sub));
      assert PushesOf(DueLog(l, sub)) == if Concerns(Member(sub.cluster, sub.member), l) then [l] else [] by {
        if Concerns(Member(sub.cluster, sub.member), l) { assert [Pushed(l)][..0] == []; }
      }
    }
  }

  lemma {:induction false} DueMembers(logs: seq<Log>, sub: Subscription, d: Delivery)
    ensures d in DuePushes(logs, sub) <==>
              && d.Pushed? && d.log in logs && d.log.cluster == sub.cluster
              && (d.log.kind.MessageSent? ==> d.log.kind.recipient == sub.member)
  {
    if logs != [] {
      assert logs == logs[..|logs| - 1] + [logs[|logs| - 1]];
      DueMembers(logs[..|logs| - 1], sub, d);
    }
  }

  // ---------------------------------------------------------------- what is sent

  /** a became b by being offered these items in order; a failed send ends the stream for good. */
  predicate SentUpTo(a: Stream, b: Stream, items: seq<Delivery>, k: nat) {
    && k <= |items|
    && b == Stream(a.sub, a.delivered + items[..k], a.live && k == |items|)
    && (!a.live ==> k == 0)
  }

  ghost predicate Sent(a: Stream, b: Stream, items: seq<Delivery>) {
    exists k: nat :: SentUpTo(a, b, items, k)
  }

  lemma SentNothing(a: Stream)
    ensures Sent(a, a, [])
  {
    assert SentUpTo(a, a, [], 0) by { assert a.delivered + [] == a.delivered; }
  }

  lemma TakeConcat<T>(w: seq<T>, x: seq<T>, y: seq<T>, j: nat)
    requires j <= |y|
    ensures w + x + y[..j] == w + (x + y)[..|x| + j]
  {
    assert (x + y)[..|x| + j] == x + y[..j];
    assert w + x + y[..j] == w + (x + y[..j]);
  }

  lemma TakeFirst<T>(w: seq<T>, x: seq<T>, y: seq<T>, i: nat)
    requires i <= |x|
    ensures w + x[..i] + y[..0] == w + (x + y)[..i]
  {
    assert (x + y)[..i] == x[..i];
    assert w + x[..i] + y[..0] == w + x[..i];
  }

  /** Two offers in a row are one offer of both. */
  lemma SentThen(a: Stream, b: Stream, c: Stream, x: seq<Delivery>, y: seq<Delivery>)
    requires Sent(a, b, x) && Sent(b, c, y)
    ensures Sent(a, c, x + y)
  {
    var i: nat :| SentUpTo(a, b, x, i);
    var j: nat :| SentUpTo(b, c, y, j);
    if b.live {
      assert x[..i] == x;
      TakeConcat(a.delivered, x, y, j);
      assert SentUpTo(a, c, x + y, i + j);
    } else {
      TakeFirst(a.delivered, x, y, i);
      assert SentUpTo(a, c, x + y, i);
    }
  }

  /**
   * What one page has added to a stream: logs of the page that are of its cluster and not messages to someone else, and a
   * checkpoint at the page's end if it asked for them; all of that, the checkpoint last, if the stream is still live.
   */
  ghost predicate PageSent(a: Stream, b: Stream, logs: seq<Log>, clusters: set<Address>, through: nat) {
    && b.sub == a.sub && a.delivered <= b.delivered && (b.live ==> a.live)
    && (forall i | |a.delivered| <= i < |b.delivered| :: OwnedBy(b.delivered[i], a.sub, logs, clusters, through))
    && (b.live ==> forall l | l in logs && l.cluster == a.sub.cluster && (l.kind.MessageSent? ==> l.kind.recipient == a.sub.member) ::
                     Pushed(l) in b.delivered[|a.delivered|..])
    && (b.live && a.sub.checkpoints && a.sub.cluster in clusters ==>
          |b.delivered| > |a.delivered| && b.delivered[|b.delivered| - 1] == Checkpoint(through))
  }

  ghost predicate OwnedBy(d: Delivery, sub: Subscription, logs: seq<Log>, clusters: set<Address>, through: nat) {
    match d
    case Pushed(l) => l in logs && l.cluster == sub.cluster && (l.kind.MessageSent? ==> l.kind.recipient == sub.member)
    case Checkpoint(block) => block == through && sub.checkpoints && sub.cluster in clusters
  }

  lemma SentPage(a: Stream, b: Stream, logs: seq<Log>, clusters: set<Address>, through: nat)
    requires Sent(a, b, Due(logs, clusters, through, a.sub))
    ensures PageSent(a, b, logs, clusters, through)
  {
    var due := Due(logs, clusters, through, a.sub);
    var k: nat :| SentUpTo(a, b, due, k);
    forall i | |a.delivered| <= i < |b.delivered| ensures OwnedBy(b.delivered[i], a.sub, logs, clusters, through) {
      assert b.delivered[i] == due[i - |a.delivered|];
      DueMembers(logs, a.sub, b.delivered[i]);
    }
    if b.live {
      assert b.delivered[|a.delivered|..] == due;
      forall l | l in logs && l.cluster == a.sub.cluster && (l.kind.MessageSent? ==> l.kind.recipient == a.sub.member)
        ensures Pushed(l) in due
      {
        DueMembers(logs, a.sub, Pushed(l));
      }
    }
  }

  // ---------------------------------------------------------------- the delivery guarantee

  function Reader(sub: Subscription): Audience {
    Member(sub.cluster, sub.member)
  }

  /** The pushes are the subscriber's logs since it attached, in chain order, without a gap; all of them while it is live. */
  predicate Exact(chain: seq<Log>, st: Stream, last: nat) {
    var all := Select(chain, Reader(st.sub), st.sub.attachedAt, last);
    st.sub.attachedAt <= last && PushesOf(st.delivered) <= all && (st.live ==> PushesOf(st.delivered) == all)
  }

  /** Delivery i is a checkpoint at which the pushes so far are exactly the logs up to its block. */
  predicate AtFrontier(chain: seq<Log>, st: Stream, i: nat, last: nat)
    requires i < |st.delivered| && st.delivered[i].Checkpoint?
  {
    var b := st.delivered[i].block;
    && st.sub.attachedAt <= b <= last
    && PushesOf(st.delivered[..i]) == Select(chain, Reader(st.sub), st.sub.attachedAt, b)
  }

  predicate Delivered(chain: seq<Log>, st: Stream, last: nat) {
    Exact(chain, st, last) && forall i: nat | i < |st.delivered| && st.delivered[i].Checkpoint? :: AtFrontier(chain, st, i, last)
  }

  lemma FreshStreamDelivered(chain: seq<Log>, sub: Subscription)
    ensures Delivered(chain, Stream(sub, [], true), sub.attachedAt)
  {
    NothingBetween(chain, Reader(sub), sub.attachedAt);
  }

  /** The watermark may pass blocks in which the subscriber has no log. */
  lemma IdleDelivered(chain: seq<Log>, st: Stream, last: nat, to: nat)
    requires ChainOrdered(chain) && Delivered(chain, st, last) && last <= to
    requires Select(chain, Reader(st.sub), last, to) == []
    ensures Delivered(chain, st, to)
  {
    SelectAdjacent(chain, Reader(st.sub), st.sub.attachedAt, last, to);
    forall i: nat | i < |st.delivered| && st.delivered[i].Checkpoint? ensures AtFrontier(chain, st, i, to) {
      assert AtFrontier(chain, st, i, last);
    }
  }

  lemma MarkPushesNothing(clusters: set<Address>, to: nat, sub: Subscription)
    ensures PushesOf(DueCheckpoint(clusters, to, sub)) == []
  {
    if DueCheckpoint(clusters, to, sub) != [] {
      assert DueCheckpoint(clusters, to, sub) == [Checkpoint(to)] && [Checkpoint(to)][..0] == [];
    }
  }

  /** A page owes exactly the subscriber's share of it. */
  lemma DueWhole(logs: seq<Log>, clusters: set<Address>, to: nat, sub: Subscription)
    ensures PushesOf(Due(logs, clusters, to, sub)) == Filter(logs, Reader(sub))
  {
    DuePushesOnlyPush(logs, sub);
    MarkPushesNothing(clusters, to, sub);
    PushesConcat(DuePushes(logs, sub), DueCheckpoint(clusters, to, sub));
  }

  lemma {:induction false} PushesOfPrefix(ds: seq<Delivery>, k: nat)
    requires k <= |ds|
    ensures PushesOf(ds[..k]) <= PushesOf(ds)
  {
    PushesConcat(ds[..k], ds[k..]);
    assert ds[..k] + ds[k..] == ds;
  }

  /** The checkpoint is the last thing a page owes. */
  lemma DueMark(logs: seq<Log>, clusters: set<Address>, to: nat, sub: Subscription, i: nat)
    requires i < |Due(logs, clusters, to, sub)| && Due(logs, clusters, to, sub)[i].Checkpoint?
    ensures Due(logs, clusters, to, sub)[i].block == to && PushesOf(Due(logs, clusters, to, sub)[..i]) == Filter(logs, Reader(sub))
  {
    var pushes := DuePushes(logs, sub);
    DuePushesOnlyPush(logs, sub);
    assert forall j | 0 <= j < |pushes| :: Due(logs, clusters, to, sub)[j] == pushes[j] && pushes[j] in pushes;
    assert i == |pushes|;
    assert Due(logs, clusters, to, sub)[..i] == pushes;
  }

  lemma EarlierFrontierKept(chain: seq<Log>, a: Stream, b: Stream, i: nat, last: nat, to: nat)
    requires i < |a.delivered| && a.delivered[i].Checkpoint? && AtFrontier(chain, a, i, last)
    requires a.sub == b.sub && a.delivered <= b.delivered && last <= to
    ensures b.delivered[i].Checkpoint? && AtFrontier(chain, b, i, to)
  {
    assert b.delivered[..i] == a.delivered[..i];
  }

  lemma PrefixAfter<T>(w: seq<T>, x: seq<T>, y: seq<T>)
    requires x <= y
    ensures w + x <= w + y
  {
  }

  lemma PrefixLonger<T>(w: seq<T>, x: seq<T>, y: seq<T>)
    requires w <= x
    ensures w <= x + y
  {
  }

  lemma PageExact(chain: seq<Log>, a: Stream, b: Stream, logs: seq<Log>, clusters: set<Address>, last: nat, to: nat, k: nat)
    requires ChainOrdered(chain) && last <= to && Exact(chain, a, last)
    requires Filter(logs, Reader(a.sub)) == Select(chain, Reader(a.sub), last, to)
    requires SentUpTo(a, b, Due(logs, clusters, to, a.sub), k)
    ensures Exact(chain, b, to)
  {
    var due := Due(logs, clusters, to, a.sub);
    var before, page := Select(chain, Reader(a.sub), a.sub.attachedAt, last), Select(chain, Reader(a.sub), last, to);
    SelectAdjacent(chain, Reader(a.sub), a.sub.attachedAt, last, to);
    if a.live {
      DueWhole(logs, clusters, to, a.sub);
      PushesOfPrefix(due, k);
      PushesConcat(a.delivered, due[..k]);
      PrefixAfter(before, PushesOf(due[..k]), page);
      if k == |due| { assert due[..k] == due; }
    } else {
      assert b.delivered == a.delivered;
      PrefixLonger(PushesOf(a.delivered), before, page);
    }
  }

  lemma PageFrontier(chain: seq<Log>, a: Stream, b: Stream, logs: seq<Log>, clusters: set<Address>, last: nat, to: nat, k: nat, i: nat)
    requires ChainOrdered(chain) && last <= to && Exact(chain, a, last)
    requires Filter(logs, Reader(a.sub)) == Select(chain, Reader(a.sub), last, to)
    requires SentUpTo(a, b, Due(logs, clusters, to, a.sub), k)
    requires |a.delivered| <= i < |b.delivered| && b.delivered[i].Checkpoint?
    ensures AtFrontier(chain, b, i, to)
  {
    var due, n := Due(logs, clusters, to, a.sub), |a.delivered|;
    DueMark(logs, clusters, to, a.sub, i - n);
    SelectAdjacent(chain, Reader(a.sub), a.sub.attachedAt, last, to);
    assert b.delivered[i] == due[i - n];
    assert b.delivered[..i] == a.delivered + due[..i - n];
    PushesConcat(a.delivered, due[..i - n]);
  }

  /** Offering a page to a stream that was exact up to the watermark keeps it exact up to the page's end. */
  lemma PageDelivered(chain: seq<Log>, a: Stream, b: Stream, logs: seq<Log>, clusters: set<Address>, last: nat, to: nat)
    requires ChainOrdered(chain) && last <= to && Delivered(chain, a, last)
    requires Filter(logs, Reader(a.sub)) == Select(chain, Reader(a.sub), last, to)
    requires Sent(a, b, Due(logs, clusters, to, a.sub))
    ensures Delivered(chain, b, to)
  {
    var k: nat :| SentUpTo(a, b, Due(logs, clusters, to, a.sub), k);
    PageExact(chain, a, b, logs, clusters, last, to, k);
    forall i: nat | i < |b.delivered| && b.delivered[i].Checkpoint? ensures AtFrontier(chain, b, i, to) {
      if i < |a.delivered| {
        EarlierFrontierKept(chain, a, b, i, last, to);
      } else {
        PageFrontier(chain, a, b, logs, clusters, last, to, k, i);
      }
    }
  }

  // ---------------------------------------------------------------- what a reader may conclude

  lemma {:induction false} SelectOrdered(chain: seq<Log>, a: Audience, lo: int, hi: int)
    requires ChainOrdered(chain)
    ensures ChainOrdered(Select(chain, a, lo, hi))
  {
    if chain != [] {
      var front, l := chain[..|chain| - 1], chain[|chain| - 1];
      SelectOrdered(front, a, lo, hi);
      var s := Select(front, a, lo, hi);
      forall x | x in s ensures Precedes(x, l) {
        SelectMembers(front, a, lo, hi, x);
        var i :| 0 <= i < |front| && front[i] == x;
        assert Precedes(chain[i], chain[|chain| - 1]);
      }
    }
  }

  lemma {:induction false} PushesMembers(ds: seq<Delivery>, l: Log)
    ensures Pushed(l) in ds <==> l in PushesOf(ds)
  {
    if ds != [] {
      assert ds == ds[..|ds| - 1] + [ds[|ds| - 1]];
      PushesMembers(ds[..|ds| - 1], l);
    }
  }

  /**
   * A live stream holds exactly the logs of its cluster since it attached, and of the messages exactly those sent to its
   * member; no log comes twice or out of chain order on any stream.
   */
  lemma {:induction false} LiveDeliveryIsExact(chain: seq<Log>, st: Stream, last: nat, l: Log)
    requires ChainOrdered(chain) && Delivered(chain, st, last)
    ensures forall i, j | 0 <= i < j < |PushesOf(st.delivered)| ::
              var a, b := PushesOf(st.delivered)[i], PushesOf(st.delivered)[j];
              a.block < b.block || (a.block == b.block && a.index < b.index)
    ensures Pushed(l) in st.delivered ==>
              && l in chain && st.sub.attachedAt < l.block <= last
              && l.cluster == st.sub.cluster && (l.kind.MessageSent? ==> l.kind.recipient == st.sub.member)
    ensures st.live && l in chain && st.sub.attachedAt < l.block <= last
            && l.cluster == st.sub.cluster && (l.kind.MessageSent? ==> l.kind.recipient == st.sub.member) ==>
              Pushed(l) in st.delivered
  {
    var all := Select(chain, Reader(st.sub), st.sub.attachedAt, last);
    SelectOrdered(chain, Reader(st.sub), st.sub.attachedAt, last);
    SelectMembers(chain, Reader(st.sub), st.sub.attachedAt, last, l);
    PushesMembers(st.delivered, l);
    assert forall i | 0 <= i < |PushesOf(st.delivered)| :: PushesOf(st.delivered)[i] == all[i];
  }

  lemma PushesThenMark(x: seq<Delivery>, block: nat)
    ensures PushesOf(x + [Checkpoint(block)]) == PushesOf(x)
  {
    assert (x + [Checkpoint(block)])[..|x|] == x;
  }

  lemma PushesAround(ds: seq<Delivery>, i: nat)
    requires i < |ds| && ds[i].Checkpoint?
    ensures PushesOf(ds) == PushesOf(ds[..i]) + PushesOf(ds[i + 1..])
  {
    var x, y := ds[..i], ds[i + 1..];
    PushesThenMark(x, ds[i].block);
    PushesConcat(x + [ds[i]], y);
    assert ds == x + [ds[i]] + y;
  }

  lemma LaterPushes(chain: seq<Log>, st: Stream, last: nat, i: nat)
    requires ChainOrdered(chain) && Delivered(chain, st, last)
    requires i < |st.delivered| && st.delivered[i].Checkpoint?
    ensures PushesOf(st.delivered[i + 1..]) <= Select(chain, Reader(st.sub), st.delivered[i].block, last)
  {
    var b := st.delivered[i].block;
    assert AtFrontier(chain, st, i, last);
    SelectAdjacent(chain, Reader(st.sub), st.sub.attachedAt, b, last);
    PushesAround(st.delivered, i);
    assert Exact(chain, st, last);
    SameHead(PushesOf(st.delivered[..i]), PushesOf(st.delivered[i + 1..]), Select(chain, Reader(st.sub), b, last));
  }

  lemma SameHead<T>(x: seq<T>, y: seq<T>, z: seq<T>)
    requires x + y <= x + z
    ensures y <= z
  {
    forall i | 0 <= i < |y| ensures y[i] == z[i] {
      assert (x + y)[|x| + i] == (x + z)[|x| + i];
    }
  }

  /** A checkpoint for block b comes after every one of the member's logs at or below b and before every log above it. */
  lemma CheckpointSeparates(chain: seq<Log>, st: Stream, last: nat, i: nat, l: Log)
    requires ChainOrdered(chain) && Delivered(chain, st, last)
    requires i < |st.delivered| && st.delivered[i].Checkpoint?
    ensures var b := st.delivered[i].block;
            && (Pushed(l) in st.delivered[..i] <==>
                  && l in chain && st.sub.attachedAt < l.block <= b
                  && l.cluster == st.sub.cluster && (l.kind.MessageSent? ==> l.kind.recipient == st.sub.member))
            && (Pushed(l) in st.delivered[i + 1..] ==> b < l.block)
  {
    var b := st.delivered[i].block;
    assert AtFrontier(chain, st, i, last);
    SelectMembers(chain, Reader(st.sub), st.sub.attachedAt, b, l);
    PushesMembers(st.delivered[..i], l);
    LaterPushes(chain, st, last, i);
    PushesMembers(st.delivered[i + 1..], l);
    SelectMembers(chain, Reader(st.sub), b, last, l);
  }
}
