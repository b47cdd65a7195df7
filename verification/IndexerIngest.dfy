/** What boot reads, watcher pages and backfills put into the indexer's history, and what one dispatch puts on its streams. */
module IndexerIngest {
  import opened IndexerChain
  import opened IndexerDelivery

  /**
   * How a cluster's logs came in: watcher pages from the watermark `from` of its admission on, and when they had reached
   * `placed` its backfill of (0, through]. Pending while the backfill has not been handed over.
   */
  datatype Resume = Pending(from: nat) | Resume(through: nat, from: nat, placed: nat)

  function Through(r: Resume): nat {
    if r.Pending? then 0 else r.through
  }

  function Only(c: Address): Audience {
    Clusters({c})
  }

  /** What the final chain promises: ordered logs, none before its cluster's deployment, nothing below the floor or in block 0. */
  datatype Chain = Chain(chain: seq<Log>, deployments: seq<Deployment>, floor: nat)

  predicate WellFormed(w: Chain) {
    var Chain(chain, deployments, floor) := w;
    && ChainOrdered(chain)
    && (forall l | l in chain :: AtLeast(floor, 1) <= l.block)
    && (forall d | d in deployments :: AtLeast(floor, 1) <= d.block)
    && (forall d | d in deployments :: NoneBefore(chain, d.cluster, d.block))
  }

  type World = w: Chain | WellFormed(w) witness Chain([], [], 0)

  predicate NoneBefore(chain: seq<Log>, c: Address, block: nat) {
    forall l | l in chain && l.cluster == c :: block <= l.block
  }

  // ---------------------------------------------------------------- completeness of what was ingested

  predicate Fit(r: Resume, last: nat) {
    r.from <= last && (r.Resume? ==> r.from <= r.placed <= last)
  }

  /** The cluster's logs of these reads, in the order they were handed over. */
  function Share(chain: seq<Log>, a: Audience, r: Resume, last: nat): seq<Log> {
    match r
    case Pending(from) => Select(chain, a, from, last)
    case Resume(through, from, placed) => Select(chain, a, from, placed) + Select(chain, a, 0, through) + Select(chain, a, placed, last)
  }

  /** The history holds exactly the cluster's logs of its reads. */
  predicate Backed(chain: seq<Log>, history: seq<Log>, c: Address, r: Resume, last: nat) {
    Fit(r, last) && Filter(history, Only(c)) == Share(chain, Only(c), r, last)
  }

  lemma ShareGrows(chain: seq<Log>, a: Audience, r: Resume, last: nat, to: nat)
    requires ChainOrdered(chain) && Fit(r, last) && last <= to
    ensures Share(chain, a, r, last) + Select(chain, a, last, to) == Share(chain, a, r, to) && Fit(r, to)
  {
    match r
    case Pending(from) => SelectAdjacent(chain, a, from, last, to);
    case Resume(through, from, placed) =>
      SelectAdjacent(chain, a, placed, last, to);
      var x, y, z := Select(chain, a, from, placed) + Select(chain, a, 0, through), Select(chain, a, placed, last), Select(chain, a, last, to);
      assert (x + y) + z == x + (y + z);
  }

  /** No log of the cluster lies after its backfill and before the pages. */
  predicate Gapless(chain: seq<Log>, c: Address, r: Resume) {
    forall l | l in chain && l.cluster == c :: !(Through(r) < l.block <= r.from)
  }

  predicate NoneBetween(chain: seq<Log>, c: Address, lo: int, hi: int) {
    forall l | l in chain && l.cluster == c :: !(lo < l.block <= hi)
  }

  /** A log up to the watermark has been ingested exactly when it is not between the two reads. */
  lemma BackedHolds(chain: seq<Log>, history: seq<Log>, c: Address, r: Resume, last: nat, l: Log)
    requires Backed(chain, history, c, r, last)
    requires l in chain && l.cluster == c && 0 < l.block <= last
    ensures l in history <==> !(Through(r) < l.block <= r.from)
  {
    FilterMembers(history, Only(c), l);
    match r
    case Pending(from) => SelectMembers(chain, Only(c), from, last, l);
    case Resume(through, from, placed) =>
      SelectMembers(chain, Only(c), from, placed, l);
      SelectMembers(chain, Only(c), 0, through, l);
      SelectMembers(chain, Only(c), placed, last, l);
  }

  predicate HasAll(chain: seq<Log>, history: seq<Log>, c: Address, last: nat) {
    forall l | l in chain && l.cluster == c && l.block <= last :: l in history
  }

  /** Every log of the cluster up to the watermark has been ingested exactly when none lies between the two reads. */
  lemma BackedIsCompleteIff(chain: seq<Log>, history: seq<Log>, c: Address, r: Resume, last: nat)
    requires Backed(chain, history, c, r, last) && forall l | l in chain :: 0 < l.block
    ensures HasAll(chain, history, c, last) <==> Gapless(chain, c, r)
  {
    forall l | l in chain && l.cluster == c && l.block <= last
      ensures l in history <==> !(Through(r) < l.block <= r.from)
    {
      BackedHolds(chain, history, c, r, last, l);
    }
  }

  /** Nothing of the cluster is between the watermark and where the next scan starts. */
  lemma GapIsEmpty(chain: seq<Log>, a: Audience, last: nat, floor: nat, to: int)
    requires forall l | l in chain :: AtLeast(floor, 1) <= l.block
    requires last < U64_MAX
    ensures Select(chain, a, ScanStart(last, floor) - 1, to) == Select(chain, a, last, to)
    ensures last <= to < ScanStart(last, floor) ==> Select(chain, a, last, to) == []
  {
    var from := ScanStart(last, floor);
    if from == last + 1 {
      NothingBetween(chain, a, last);
    } else {
      SelectSkips(chain, a, last, from - 1, to);
      if to < from { NothingBefore(chain, a, last, to); }
    }
  }

  lemma PageShare(chain: seq<Log>, known: set<Address>, c: Address, last: nat, floor: nat, to: nat)
    requires forall l | l in chain :: AtLeast(floor, 1) <= l.block
    requires last < U64_MAX && c in known
    ensures Filter(Select(chain, Clusters(known), ScanStart(last, floor) - 1, to), Only(c)) == Select(chain, Only(c), last, to)
  {
    FilterSelect(chain, known, ScanStart(last, floor) - 1, to, Only(c));
    GapIsEmpty(chain, Only(c), last, floor, to);
  }

  lemma PageBacked(chain: seq<Log>, history: seq<Log>, known: set<Address>, c: Address, r: Resume, last: nat, floor: nat, to: nat)
    requires ChainOrdered(chain) && (forall l | l in chain :: AtLeast(floor, 1) <= l.block)
    requires last < U64_MAX && last <= to && c in known
    requires Backed(chain, history, c, r, last)
    ensures Backed(chain, history + Select(chain, Clusters(known), ScanStart(last, floor) - 1, to), c, r, to)
  {
    FilterConcat(history, Select(chain, Clusters(known), ScanStart(last, floor) - 1, to), Only(c));
    PageShare(chain, known, c, last, floor, to);
    ShareGrows(chain, Only(c), r, last, to);
  }

  lemma IdleBacked(chain: seq<Log>, history: seq<Log>, c: Address, r: Resume, last: nat, to: nat)
    requires ChainOrdered(chain) && last <= to && Backed(chain, history, c, r, last)
    requires Select(chain, Only(c), last, to) == []
    ensures Backed(chain, history, c, r, to)
  {
    ShareGrows(chain, Only(c), r, last, to);
  }

  /** Nothing of a cluster has been read when it becomes visible. */
  lemma RevealBacks(chain: seq<Log>, history: seq<Log>, c: Address, last: nat)
    requires Filter(history, Only(c)) == []
    ensures Backed(chain, history, c, Pending(last), last)
  {
    NothingBetween(chain, Only(c), last);
  }

  /** Handing over its backfill, when the watermark stands at last. */
  lemma BackfillBacks(chain: seq<Log>, history: seq<Log>, c: Address, r: Resume, through: nat, last: nat)
    requires r.Pending? && Backed(chain, history, c, r, last)
    ensures Backed(chain, history + Select(chain, Only(c), 0, through), c, Resume(through, r.from, last), last)
    ensures Filter(history + Select(chain, Only(c), 0, through), Only(c)) == Filter(history, Only(c)) + Select(chain, Only(c), 0, through)
  {
    FilterConcat(history, Select(chain, Only(c), 0, through), Only(c));
    FilterSelect(chain, {c}, 0, through, Only(c));
    NothingBetween(chain, Only(c), last);
  }

  lemma EmptyFirst<T>(none: seq<T>, x: seq<T>, y: seq<T>)
    requires none == []
    ensures none + x + y == x + y && none + y == y
  {
  }

  /** A backfill that starts at the deployment reads the whole history. */
  lemma BackfillIsWhole(chain: seq<Log>, c: Address, start: nat, through: nat)
    requires 0 < start && NoneBefore(chain, c, start)
    ensures Select(chain, Only(c), start - 1, through) == Select(chain, Only(c), 0, through)
  {
    SelectSkips(chain, Only(c), 0, start - 1, through);
  }

  /** Reading other clusters leaves a cluster's share alone. */
  lemma OthersUntouched(chain: seq<Log>, history: seq<Log>, cs: set<Address>, lo: int, hi: int, c: Address)
    requires c !in cs
    ensures Filter(history + Select(chain, Clusters(cs), lo, hi), Only(c)) == Filter(history, Only(c))
  {
    FilterConcat(history, Select(chain, Clusters(cs), lo, hi), Only(c));
    FilterSelectOutside(chain, cs, lo, hi, c);
  }

  // ---------------------------------------------------------------- state-wide predicates

  predicate AllBacked(chain: seq<Log>, history: seq<Log>, known: set<Address>, resume: map<Address, Resume>, last: nat) {
    forall c | c in known :: c in resume && Backed(chain, history, c, resume[c], last)
  }

  predicate IsPrompt(r: Resume) {
    r.Resume? && r.placed == r.from <= r.through
  }

  /** Every known cluster's backfill was handed over at once and reached the watermark of its admission. */
  predicate AllPrompt(known: set<Address>, resume: map<Address, Resume>) {
    forall c | c in known :: c in resume && IsPrompt(resume[c])
  }

  /** The reads of those of these clusters whose backfill was handed over are as they were. */
  predicate SameReads(known: set<Address>, before: map<Address, Resume>, after: map<Address, Resume>) {
    forall c | c in known && c in before && before[c].Resume? :: c in after && after[c] == before[c]
  }

  /** A tick leaves the reads of the clusters it reads as they were. */
  predicate Kept(clusters: set<Address>, before: map<Address, Resume>, after: map<Address, Resume>) {
    forall c | c in clusters && c in before :: c in after && after[c] == before[c]
  }

  /** A backfill read by the discovery pass and not handed over yet. */
  datatype Backfill = Backfill(logs: seq<Log>, through: nat)

  predicate Collected(chain: seq<Log>, c: Address, b: Backfill) {
    b.logs == Select(chain, Only(c), 0, b.through)
  }

  /** Pending clusters are those with a collected backfill; the read model has taken nothing of those it does not list yet. */
  predicate Awaiting(chain: seq<Log>, known: set<Address>, projected: set<Address>, resume: map<Address, Resume>, awaited: map<Address, Backfill>, last: nat) {
    && awaited.Keys <= known
    && forall c | c in known :: c in resume && AwaitingOne(chain, c, c in projected, resume[c], awaited, last)
  }

  predicate AwaitingOne(chain: seq<Log>, c: Address, listed: bool, r: Resume, awaited: map<Address, Backfill>, last: nat) {
    && (c in awaited <==> r.Pending?)
    && (c in awaited ==> Collected(chain, c, awaited[c]))
    && (!listed ==> r == Pending(last))
  }

  ghost predicate OnlyKnownIngested(history: seq<Log>, known: set<Address>) {
    forall c: Address | c !in known :: Filter(history, Only(c)) == []
  }

  predicate Discovered(deployments: seq<Deployment>, known: set<Address>, upTo: int) {
    forall d | d in deployments && d.block <= upTo :: d.cluster in known
  }

  predicate Numbered(sessions: set<nat>, next: nat) {
    forall s | s in sessions :: s < next
  }

  /** The stream as if it had been attached at another block. */
  function Hearing(st: Stream, from: nat): Stream {
    Stream(Subscription(st.sub.cluster, st.sub.member, st.sub.checkpoints, from), st.delivered, st.live)
  }

  /** From this block on, deliveries to the stream are exact. */
  predicate OnTrack(chain: seq<Log>, st: Stream, from: nat, known: set<Address>, last: nat) {
    st.sub.cluster in known && Delivered(chain, Hearing(st, from), last)
  }

  predicate AllDelivered(chain: seq<Log>, streams: map<nat, Stream>, heard: map<nat, nat>, known: set<Address>, last: nat) {
    forall s | s in streams :: s in heard && OnTrack(chain, streams[s], heard[s], known, last)
  }

  /** The factory's deployments in an inclusive block range, in order. */
  function FoundIn(ds: seq<Deployment>, from: nat, to: nat): seq<Deployment> {
    if ds == [] then []
    else
      FoundIn(ds[..|ds| - 1], from, to) +
      var d := ds[|ds| - 1];
      if from <= d.block <= to then [d] else []
  }

  lemma {:induction false} FoundInMembers(ds: seq<Deployment>, from: nat, to: nat, d: Deployment)
    ensures d in FoundIn(ds, from, to) <==> d in ds && from <= d.block <= to
  {
    if ds != [] {
      assert ds == ds[..|ds| - 1] + [ds[|ds| - 1]];
      FoundInMembers(ds[..|ds| - 1], from, to, d);
    }
  }

  predicate AllKnown(found: seq<Deployment>, n: nat, known: set<Address>)
    requires n <= |found|
  {
    forall k | 0 <= k < n :: found[k].cluster in known
  }

  lemma KnownMore(found: seq<Deployment>, i: nat, known: set<Address>, more: set<Address>)
    requires i < |found| && AllKnown(found, i, known) && known <= more && found[i].cluster in more
    ensures AllKnown(found, i + 1, more)
  {
  }

  predicate FromFactory(found: seq<Deployment>, deployments: seq<Deployment>, head: nat) {
    forall k | 0 <= k < |found| :: found[k] in deployments && found[k].block <= head
  }

  /** One page of deployments is known, so discovery is complete up to its end. */
  lemma PageDiscovered(ds: seq<Deployment>, known: set<Address>, from: nat, to: nat)
    requires Discovered(ds, known, from - 1)
    requires AllKnown(FoundIn(ds, from, to), |FoundIn(ds, from, to)|, known)
    ensures Discovered(ds, known, to)
  {
    forall d | d in ds && d.block <= to ensures d.cluster in known {
      FoundInMembers(ds, from, to, d);
    }
  }

  // ---------------------------------------------------------------- one dispatch over all sessions

  /** Every session was offered what this page owes it: the logs given, and the checkpoint for the clusters given. */
  ghost predicate AllSent(a: map<nat, Stream>, b: map<nat, Stream>, logs: seq<Log>, clusters: set<Address>, through: nat) {
    a.Keys == b.Keys && forall s | s in a :: Sent(a[s], b[s], Due(logs, clusters, through, a[s].sub))
  }

  /** The page in the logs' own fields, stream by stream. */
  ghost predicate AllPageSent(a: map<nat, Stream>, b: map<nat, Stream>, logs: seq<Log>, clusters: set<Address>, through: nat) {
    a.Keys == b.Keys && forall s | s in a :: PageSent(a[s], b[s], logs, clusters, through)
  }

  lemma AllSentPages(a: map<nat, Stream>, b: map<nat, Stream>, logs: seq<Log>, clusters: set<Address>, through: nat)
    requires AllSent(a, b, logs, clusters, through)
    ensures AllPageSent(a, b, logs, clusters, through)
  {
    forall s | s in a ensures PageSent(a[s], b[s], logs, clusters, through) {
      SentPage(a[s], b[s], logs, clusters, through);
    }
  }

  /** Sessions still to serve are as before; the others were offered one more item list. */
  ghost predicate Serving(a: map<nat, Stream>, b: map<nat, Stream>, todo: set<nat>, log: Log) {
    && a.Keys == b.Keys
    && (forall s | s in todo :: s in a && b[s] == a[s])
    && (forall s | s in a && s !in todo :: Sent(a[s], b[s], DueLog(log, a[s].sub)))
  }

  ghost predicate Marking(a: map<nat, Stream>, b: map<nat, Stream>, todo: set<nat>, c: Address, through: nat) {
    && a.Keys == b.Keys
    && (forall s | s in todo :: s in a && b[s] == a[s])
    && (forall s | s in a && s !in todo :: Sent(a[s], b[s], DueCheckpoint({c}, through, a[s].sub)))
  }

  lemma SameSub(a: Stream, b: Stream, items: seq<Delivery>)
    requires Sent(a, b, items)
    ensures b.sub == a.sub
  {
    var k: nat :| SentUpTo(a, b, items, k);
  }

  lemma NothingServed(a: map<nat, Stream>, through: nat)
    ensures AllSent(a, a, [], {}, through)
  {
    forall s | s in a ensures Sent(a[s], a[s], Due([], {}, through, a[s].sub)) {
      SentNothing(a[s]);
      assert Due([], {}, through, a[s].sub) == [];
    }
  }

  lemma LogServed(a: map<nat, Stream>, b: map<nat, Stream>, c: map<nat, Stream>, logs: seq<Log>, log: Log, through: nat)
    requires AllSent(a, b, logs, {}, through) && Serving(b, c, {}, log)
    ensures AllSent(a, c, logs + [log], {}, through)
  {
    assert (logs + [log])[..|logs|] == logs;
    forall s | s in a ensures Sent(a[s], c[s], Due(logs + [log], {}, through, a[s].sub)) {
      var sub := a[s].sub;
      SameSub(a[s], b[s], Due(logs, {}, through, sub));
      SentThen(a[s], b[s], c[s], Due(logs, {}, through, sub), DueLog(log, sub));
      assert Due(logs, {}, through, sub) + DueLog(log, sub) == Due(logs + [log], {}, through, sub);
    }
  }

  lemma MarkOne(a: Stream, b: Stream, c: Stream, logs: seq<Log>, done: set<Address>, x: Address, through: nat)
    requires Sent(a, b, Due(logs, done, through, a.sub)) && Sent(b, c, DueCheckpoint({x}, through, b.sub)) && x !in done
    ensures Sent(a, c, Due(logs, done + {x}, through, a.sub))
  {
    SameSub(a, b, Due(logs, done, through, a.sub));
    SentThen(a, b, c, Due(logs, done, through, a.sub), DueCheckpoint({x}, through, a.sub));
    assert Due(logs, done, through, a.sub) + DueCheckpoint({x}, through, a.sub) == Due(logs, done + {x}, through, a.sub);
  }

  lemma ClusterMarked(a: map<nat, Stream>, b: map<nat, Stream>, c: map<nat, Stream>, logs: seq<Log>, done: set<Address>, x: Address, through: nat)
    requires AllSent(a, b, logs, done, through) && Marking(b, c, {}, x, through) && x !in done
    ensures AllSent(a, c, logs, done + {x}, through)
  {
    forall s | s in a ensures Sent(a[s], c[s], Due(logs, done + {x}, through, a[s].sub)) {
      MarkOne(a[s], b[s], c[s], logs, done, x, through);
    }
  }

  /** No send to these sessions has failed, so their streams are live. */
  predicate KeptUp(streams: map<nat, Stream>, keepsUp: set<nat>) {
    forall s | s in streams && s in keepsUp :: streams[s].live
  }

  /** Sessions keep their subscriptions; a stream only gets longer, and one that ended stays ended. */
  predicate Grew(a: map<nat, Stream>, b: map<nat, Stream>) {
    a.Keys <= b.Keys && forall s | s in a :: Longer(a[s], b[s])
  }

  predicate Longer(a: Stream, b: Stream) {
    b.sub == a.sub && a.delivered <= b.delivered && (b.live ==> a.live)
  }

  lemma GrewNot(a: map<nat, Stream>)
    ensures Grew(a, a)
  {
    forall s | s in a ensures Longer(a[s], a[s]) {}
  }

  lemma GrewThen(a: map<nat, Stream>, b: map<nat, Stream>, c: map<nat, Stream>)
    requires Grew(a, b) && Grew(b, c)
    ensures Grew(a, c)
  {
    forall s | s in a ensures Longer(a[s], c[s]) { assert Longer(a[s], b[s]) && Longer(b[s], c[s]); }
  }

  lemma SentGrew(a: map<nat, Stream>, b: map<nat, Stream>, logs: seq<Log>, clusters: set<Address>, through: nat)
    requires AllSent(a, b, logs, clusters, through)
    ensures Grew(a, b)
  {
    forall s | s in a ensures Longer(a[s], b[s]) {
      var k: nat :| SentUpTo(a[s], b[s], Due(logs, clusters, through, a[s].sub), k);
    }
  }

  predicate EndsAt(st: Stream, through: nat) {
    st.delivered != [] && st.delivered[|st.delivered| - 1] == Checkpoint(through)
  }

  /** Every session of these clusters that keeps up and understands checkpoints has this one last. */
  predicate Marked(streams: map<nat, Stream>, keepsUp: set<nat>, clusters: set<Address>, through: nat) {
    forall s | s in streams && s in keepsUp && streams[s].sub.cluster in clusters && streams[s].sub.checkpoints ::
      EndsAt(streams[s], through)
  }

  lemma PageMarked(a: map<nat, Stream>, b: map<nat, Stream>, logs: seq<Log>, clusters: set<Address>, keepsUp: set<nat>, through: nat)
    requires AllSent(a, b, logs, clusters, through) && KeptUp(b, keepsUp)
    ensures Marked(b, keepsUp, clusters, through)
  {
    forall s | s in b && s in keepsUp && b[s].sub.cluster in clusters && b[s].sub.checkpoints ensures EndsAt(b[s], through) {
      var due := Due(logs, clusters, through, a[s].sub);
      var k: nat :| SentUpTo(a[s], b[s], due, k);
      assert b[s].live && k == |due|;
      assert due[..k] == due && due[|due| - 1] == Checkpoint(through);
    }
  }

  lemma HearingSent(a: Stream, b: Stream, logs: seq<Log>, clusters: set<Address>, through: nat, from: nat)
    requires Sent(a, b, Due(logs, clusters, through, a.sub))
    ensures Sent(Hearing(a, from), Hearing(b, from), Due(logs, clusters, through, Hearing(a, from).sub))
  {
    DueAlike(logs, a.sub, Hearing(a, from).sub);
    var k: nat :| SentUpTo(a, b, Due(logs, clusters, through, a.sub), k);
    assert SentUpTo(Hearing(a, from), Hearing(b, from), Due(logs, clusters, through, a.sub), k);
  }

  lemma {:induction false} DueAlike(logs: seq<Log>, a: Subscription, b: Subscription)
    requires a.cluster == b.cluster && a.member == b.member
    ensures DuePushes(logs, a) == DuePushes(logs, b)
  {
    if logs != [] { DueAlike(logs[..|logs| - 1], a, b); }
  }

  /** A page of other clusters owes a session nothing. */
  lemma {:induction false} NothingDue(logs: seq<Log>, sub: Subscription)
    requires forall l | l in logs :: l.cluster != sub.cluster
    ensures DuePushes(logs, sub) == []
  {
    if logs != [] {
      assert logs[|logs| - 1] in logs;
      NothingDue(logs[..|logs| - 1], sub);
    }
  }

  lemma SilentSent(a: Stream, b: Stream, logs: seq<Log>, clusters: set<Address>, through: nat)
    requires Sent(a, b, Due(logs, clusters, through, a.sub))
    requires a.sub.cluster !in clusters && forall l | l in logs :: l.cluster in clusters
    ensures b == a
  {
    NothingDue(logs, a.sub);
    var k: nat :| SentUpTo(a, b, Due(logs, clusters, through, a.sub), k);
    assert a.delivered + [] == a.delivered;
  }

  lemma SilentDelivered(chain: seq<Log>, st: Stream, to: nat)
    requires st.delivered == []
    ensures Delivered(chain, Hearing(st, to), to)
  {
    NothingBetween(chain, Reader(st.sub), to);
  }

  /** Sessions of clusters the running tick does not list: they attached during it and have been sent nothing. */
  predicate Unheard(streams: map<nat, Stream>, heard: map<nat, nat>, clusters: set<Address>, last: nat) {
    forall s | s in streams && streams[s].sub.cluster !in clusters :: s in heard && heard[s] == last && streams[s].delivered == []
  }

  /** Deliveries to them start only after what the tick skips. */
  function HeardAfter(streams: map<nat, Stream>, heard: map<nat, nat>, clusters: set<Address>, to: nat): map<nat, nat> {
    map s | s in heard :: if s in streams && streams[s].sub.cluster !in clusters then to else heard[s]
  }

  /** Sessions of these clusters are heard from where they were. */
  predicate SameHeard(clusters: set<Address>, streams: map<nat, Stream>, before: map<nat, nat>, after: map<nat, nat>) {
    forall s | s in streams && streams[s].sub.cluster in clusters && s in before :: s in after && after[s] == before[s]
  }

  lemma ListedKept(clusters: set<Address>, streams: map<nat, Stream>, heard: map<nat, nat>, to: nat)
    ensures SameHeard(clusters, streams, heard, HeardAfter(streams, heard, clusters, to))
  {
  }

  lemma HeardThen(clusters: set<Address>, a: map<nat, Stream>, b: map<nat, Stream>, x: map<nat, nat>, y: map<nat, nat>, z: map<nat, nat>)
    requires Grew(a, b) && SameHeard(clusters, a, x, y) && SameHeard(clusters, b, y, z)
    ensures SameHeard(clusters, a, x, z)
  {
    forall s | s in a && a[s].sub.cluster in clusters && s in x ensures s in z && z[s] == x[s] { assert Longer(a[s], b[s]); }
  }

  /** What a session has been sent is exact from where it attached. */
  predicate Attentive(streams: map<nat, Stream>, heard: map<nat, nat>) {
    forall s | s in streams :: s in heard && heard[s] <= streams[s].sub.attachedAt
  }

  lemma StillAttentive(chain: seq<Log>, known: set<Address>, a: map<nat, Stream>, b: map<nat, Stream>, before: map<nat, nat>, after: map<nat, nat>, last: nat)
    requires AllDelivered(chain, a, before, known, last) && Attentive(a, before)
    requires Grew(a, b) && b.Keys == a.Keys && SameHeard(known, a, before, after)
    ensures Attentive(b, after)
  {
    forall s | s in b ensures s in after && after[s] <= b[s].sub.attachedAt {
      assert Longer(a[s], b[s]) && OnTrack(chain, a[s], before[s], known, last);
    }
  }

  /** Every log of its cluster in blocks after `after` up to `last`, of the messages those sent to its member, was pushed. */
  ghost predicate SentAll(chain: seq<Log>, st: Stream, after: nat, last: nat) {
    forall l | l in chain && after < l.block <= last && l.cluster == st.sub.cluster && (l.kind.MessageSent? ==> l.kind.recipient == st.sub.member) ::
      Pushed(l) in st.delivered
  }

  /** There is no such log. */
  ghost predicate NothingFor(chain: seq<Log>, sub: Subscription, after: nat, last: nat) {
    forall l | l in chain && after < l.block <= last && l.cluster == sub.cluster :: l.kind.MessageSent? && l.kind.recipient != sub.member
  }

  /** Nothing but such logs was pushed. */
  ghost predicate SentOnly(chain: seq<Log>, st: Stream, after: nat, last: nat) {
    forall l | Pushed(l) in st.delivered ::
      l in chain && after < l.block <= last && l.cluster == st.sub.cluster && (l.kind.MessageSent? ==> l.kind.recipient == st.sub.member)
  }

  /** Sessions that keep up were pushed all of their logs in these blocks; no session was ever pushed anything but its own. */
  ghost predicate AllServed(chain: seq<Log>, streams: map<nat, Stream>, keepsUp: set<nat>, after: nat, last: nat) {
    && (forall s | s in streams && s in keepsUp :: SentAll(chain, streams[s], after, last))
    && (forall s | s in streams :: SentOnly(chain, streams[s], 0, last))
  }

  lemma TrackedIsServed(chain: seq<Log>, st: Stream, from: nat, known: set<Address>, after: nat, last: nat)
    requires ChainOrdered(chain) && OnTrack(chain, st, from, known, last)
    ensures st.live && from <= after ==> SentAll(chain, st, after, last)
    ensures SentOnly(chain, st, 0, last)
  {
    forall l ensures Pushed(l) in st.delivered ==>
                       && l in chain && from < l.block <= last
                       && l.cluster == st.sub.cluster && (l.kind.MessageSent? ==> l.kind.recipient == st.sub.member)
             ensures st.live && l in chain && from < l.block <= last
                     && l.cluster == st.sub.cluster && (l.kind.MessageSent? ==> l.kind.recipient == st.sub.member) ==>
                       Pushed(l) in st.delivered
    {
      LiveDeliveryIsExact(chain, Hearing(st, from), last, l);
    }
  }

  /** What a tick from one watermark to another leaves for the sessions it began with, in the logs' own fields. */
  lemma TickServed(chain: seq<Log>, a: map<nat, Stream>, b: map<nat, Stream>, before: map<nat, nat>, after: map<nat, nat>,
                   known: set<Address>, known': set<Address>, keepsUp: set<nat>, was: nat, last: nat)
    requires ChainOrdered(chain) && AllDelivered(chain, a, before, known, was) && AllDelivered(chain, b, after, known', last)
    requires Grew(a, b) && SameHeard(known, a, before, after) && KeptUp(b, keepsUp)
    ensures AllServed(chain, b, keepsUp * a.Keys, was, last)
  {
    forall s | s in b ensures (s in keepsUp * a.Keys ==> SentAll(chain, b[s], was, last)) && SentOnly(chain, b[s], 0, last) {
      assert OnTrack(chain, b[s], after[s], known', last);
      TrackedIsServed(chain, b[s], after[s], known', was, last);
      if s in a { assert OnTrack(chain, a[s], before[s], known, was); }
    }
  }

  /** A page of the listed clusters: their sessions stay exact, the others are sent nothing. */
  lemma PageAllDelivered(chain: seq<Log>, a: map<nat, Stream>, b: map<nat, Stream>, heard: map<nat, nat>, logs: seq<Log>,
                         clusters: set<Address>, known: set<Address>, last: nat, floor: nat, to: nat)
    requires ChainOrdered(chain) && (forall l | l in chain :: AtLeast(floor, 1) <= l.block)
    requires last < U64_MAX && last <= to && AllDelivered(chain, a, heard, known, last) && Unheard(a, heard, clusters, last)
    requires logs == Select(chain, Clusters(clusters), ScanStart(last, floor) - 1, to)
    requires AllSent(a, b, logs, clusters, to)
    ensures AllDelivered(chain, b, HeardAfter(a, heard, clusters, to), known, to)
    ensures Unheard(b, HeardAfter(a, heard, clusters, to), clusters, to) && b.Keys == a.Keys
  {
    forall s | s in b
      ensures s in heard && OnTrack(chain, b[s], HeardAfter(a, heard, clusters, to)[s], known, to)
      ensures b[s].sub == a[s].sub && (b[s].sub.cluster !in clusters ==> b[s].delivered == [])
    {
      SameSub(a[s], b[s], Due(logs, clusters, to, a[s].sub));
      if a[s].sub.cluster in clusters {
        ListedDelivered(chain, a[s], b[s], heard[s], logs, clusters, known, last, floor, to);
      } else {
        forall l | l in logs ensures l.cluster in clusters { SelectMembers(chain, Clusters(clusters), ScanStart(last, floor) - 1, to, l); }
        SilentSent(a[s], b[s], logs, clusters, to);
        SilentDelivered(chain, b[s], to);
      }
    }
  }

  lemma ListedDelivered(chain: seq<Log>, a: Stream, b: Stream, from: nat, logs: seq<Log>, clusters: set<Address>,
                        known: set<Address>, last: nat, floor: nat, to: nat)
    requires ChainOrdered(chain) && (forall l | l in chain :: AtLeast(floor, 1) <= l.block)
    requires last < U64_MAX && last <= to && OnTrack(chain, a, from, known, last) && a.sub.cluster in clusters
    requires logs == Select(chain, Clusters(clusters), ScanStart(last, floor) - 1, to)
    requires Sent(a, b, Due(logs, clusters, to, a.sub))
    ensures OnTrack(chain, b, from, known, to)
  {
    SameSub(a, b, Due(logs, clusters, to, a.sub));
    FilterSelect(chain, clusters, ScanStart(last, floor) - 1, to, Reader(a.sub));
    GapIsEmpty(chain, Reader(a.sub), last, floor, to);
    HearingSent(a, b, logs, clusters, to, from);
    PageDelivered(chain, Hearing(a, from), Hearing(b, from), logs, clusters, last, to);
  }

  // ---------------------------------------------------------------- the boot scan

  lemma BootStart(chain: seq<Log>, history: seq<Log>, c: Address)
    requires Filter(history, Only(c)) == []
    ensures Backed(chain, history, c, Resume(0, 0, 0), 0)
  {
    NothingBetween(chain, Only(c), 0);
  }

  /** The boot scan keeps the watermark at zero until its end, so its frontier is the first read's end. */
  lemma BootPage(chain: seq<Log>, history: seq<Log>, known: set<Address>, c: Address, r: Resume, from: nat, to: nat)
    requires ChainOrdered(chain) && c in known && from - 1 <= to && r.Resume? && r == Resume(r.through, 0, 0) && r.through <= from - 1
    requires Backed(chain, history, c, r, 0)
    requires Select(chain, Only(c), r.through, from - 1) == []
    ensures Backed(chain, history + Select(chain, Clusters(known), from - 1, to), c, Resume(to, 0, 0), 0)
  {
    var logs := Select(chain, Clusters(known), from - 1, to);
    FilterConcat(history, logs, Only(c));
    FilterSelect(chain, known, from - 1, to, Only(c));
    NothingBetween(chain, Only(c), 0);
    SelectAdjacent(chain, Only(c), 0, r.through, from - 1);
    SelectAdjacent(chain, Only(c), 0, from - 1, to);
  }

  /** Reading through the head while the watermark was zero is the same as having the watermark at the head. */
  lemma BootEnd(chain: seq<Log>, history: seq<Log>, c: Address, r: Resume, head: nat)
    requires ChainOrdered(chain) && r.Resume? && r == Resume(r.through, 0, 0) && r.through <= head && Backed(chain, history, c, r, 0)
    requires Select(chain, Only(c), r.through, head) == []
    ensures Backed(chain, history, c, Resume(head, head, head), head)
  {
    NothingBetween(chain, Only(c), 0);
    NothingBetween(chain, Only(c), head);
    SelectAdjacent(chain, Only(c), 0, r.through, head);
  }

  // ---------------------------------------------------------------- admission in three steps

  /** The watcher sees a new cluster. */
  lemma RevealedAll(chain: seq<Log>, history: seq<Log>, known: set<Address>, projected: set<Address>, resume: map<Address, Resume>,
                    awaited: map<Address, Backfill>, c: Address, b: Backfill, last: nat)
    requires AllBacked(chain, history, known, resume, last) && Awaiting(chain, known, projected, resume, awaited, last)
    requires c !in known && projected <= known && Filter(history, Only(c)) == [] && Collected(chain, c, b)
    ensures AllBacked(chain, history, known + {c}, resume[c := Pending(last)], last)
    ensures Awaiting(chain, known + {c}, projected, resume[c := Pending(last)], awaited[c := b], last)
  {
    RevealBacks(chain, history, c, last);
    forall x | x in known ensures x != c && AwaitingOne(chain, x, x in projected, resume[x], awaited[c := b], last) {
      assert AwaitingOne(chain, x, x in projected, resume[x], awaited, last);
    }
  }

  lemma UpdatedTwice(m: map<Address, Resume>, c: Address, x: Resume, y: Resume)
    ensures m[c := x][c := y] == m[c := y]
  {
  }

  /** The read model takes the backfill. */
  lemma HandedAll(chain: seq<Log>, history: seq<Log>, known: set<Address>, resume: map<Address, Resume>, c: Address, through: nat, last: nat)
    requires AllBacked(chain, history, known, resume, last) && c in known && resume[c].Pending?
    ensures AllBacked(chain, history + Select(chain, Only(c), 0, through), known, resume[c := Resume(through, resume[c].from, last)], last)
  {
    var after := history + Select(chain, Only(c), 0, through);
    BackfillBacks(chain, history, c, resume[c], through, last);
    forall x | x in known && x != c ensures Backed(chain, after, x, resume[x], last) {
      OthersUntouched(chain, history, {c}, 0, through, x);
    }
  }

  lemma HandedAwaiting(chain: seq<Log>, known: set<Address>, projected: set<Address>, resume: map<Address, Resume>,
                       awaited: map<Address, Backfill>, c: Address, through: nat, last: nat)
    requires Awaiting(chain, known, projected, resume, awaited, last) && c in known && c in projected
    ensures Awaiting(chain, known, projected, resume[c := Resume(through, resume[c].from, last)], awaited - {c}, last)
  {
    forall x | x in known && x != c ensures AwaitingOne(chain, x, x in projected, resume[x], awaited - {c}, last) {
      assert AwaitingOne(chain, x, x in projected, resume[x], awaited, last);
    }
  }

  // ---------------------------------------------------------------- clusters admitted during a watcher tick

  /** Known clusters the running tick does not read: none of its pages has been read for them. */
  predicate Unread(known: set<Address>, clusters: set<Address>, resume: map<Address, Resume>, last: nat) {
    forall c | c in known && c !in clusters :: c in resume && UnreadOne(resume[c], last)
  }

  predicate UnreadOne(r: Resume, last: nat) {
    r.from == last && (r.Resume? ==> r.placed == last)
  }

  function Moved(r: Resume, to: nat): Resume {
    match r
    case Pending(_) => Pending(to)
    case Resume(through, _, _) => Resume(through, to, to)
  }

  /** Their pages start only after what the tick skips. */
  function Skipped(clusters: set<Address>, resume: map<Address, Resume>, to: nat): map<Address, Resume> {
    map c | c in resume :: if c in clusters then resume[c] else Moved(resume[c], to)
  }

  lemma MovedShare(chain: seq<Log>, c: Address, r: Resume, last: nat, to: nat)
    requires UnreadOne(r, last)
    ensures Share(chain, Only(c), r, last) == Share(chain, Only(c), Moved(r, to), to) && Fit(Moved(r, to), to)
  {
    NothingBetween(chain, Only(c), last);
    NothingBetween(chain, Only(c), to);
  }

  lemma UnreadBacked(chain: seq<Log>, history: seq<Log>, clusters: set<Address>, c: Address, r: Resume, lo: int, last: nat, to: nat)
    requires c !in clusters && UnreadOne(r, last) && Backed(chain, history, c, r, last)
    ensures Backed(chain, history + Select(chain, Clusters(clusters), lo, to), c, Moved(r, to), to)
  {
    OthersUntouched(chain, history, clusters, lo, to, c);
    MovedShare(chain, c, r, last, to);
  }

  /** A tick over `listed` clusters hands over those of them the read model lists; the others wait. */
  lemma ListedUnread(chain: seq<Log>, known: set<Address>, projected: set<Address>, clusters: set<Address>, resume: map<Address, Resume>,
                     awaited: map<Address, Backfill>, last: nat)
    requires Awaiting(chain, known, projected, resume, awaited, last) && Unread(known, clusters, resume, last)
    ensures Unread(known, clusters * projected, resume, last)
  {
    forall c | c in known && c !in clusters * projected ensures c in resume && UnreadOne(resume[c], last) {
      assert AwaitingOne(chain, c, c in projected, resume[c], awaited, last);
    }
  }

  lemma SkippedAwaiting(chain: seq<Log>, known: set<Address>, projected: set<Address>, clusters: set<Address>, resume: map<Address, Resume>,
                        awaited: map<Address, Backfill>, last: nat, to: nat)
    requires Awaiting(chain, known, projected, resume, awaited, last) && clusters <= known && Unread(known, clusters, resume, last)
    ensures Awaiting(chain, known, projected, Skipped(clusters * projected, resume, to), awaited, to)
    ensures Unread(known, clusters, Skipped(clusters * projected, resume, to), to)
    ensures SameReads(clusters, resume, Skipped(clusters * projected, resume, to))
    ensures Kept(clusters * projected, resume, Skipped(clusters * projected, resume, to))
  {
    var after := Skipped(clusters * projected, resume, to);
    forall c | c in clusters && c in resume && resume[c].Resume? ensures c in after && after[c] == resume[c] {
      assert AwaitingOne(chain, c, c in projected, resume[c], awaited, last);
    }
    forall c | c in known ensures c in after && AwaitingOne(chain, c, c in projected, after[c], awaited, to) {
      assert AwaitingOne(chain, c, c in projected, resume[c], awaited, last);
    }
  }

  /** What the read model keeps of a page. */
  lemma {:induction false} ProjectedShare(chain: seq<Log>, clusters: set<Address>, projected: set<Address>, lo: int, hi: int)
    ensures Filter(Select(chain, Clusters(clusters), lo, hi), Clusters(projected)) == Select(chain, Clusters(clusters * projected), lo, hi)
  {
    if chain != [] {
      var front, l := chain[..|chain| - 1], chain[|chain| - 1];
      ProjectedShare(front, clusters, projected, lo, hi);
      var s := Select(front, Clusters(clusters), lo, hi);
      if Concerns(Clusters(clusters), l) && lo < l.block <= hi {
        assert (s + [l])[..|s|] == s;
      } else {
        assert Select(chain, Clusters(clusters), lo, hi) == s;
      }
    }
  }

  lemma {:induction false} SnapshotAll(chain: seq<Log>, history: seq<Log>, after: seq<Log>, known: set<Address>, clusters: set<Address>, resume: map<Address, Resume>, last: nat, floor: nat, to: nat)
    requires ChainOrdered(chain) && (forall l | l in chain :: AtLeast(floor, 1) <= l.block)
    requires last < U64_MAX && last <= to && clusters <= known
    requires AllBacked(chain, history, known, resume, last) && Unread(known, clusters, resume, last)
    requires after == history + Select(chain, Clusters(clusters), ScanStart(last, floor) - 1, to)
    ensures AllBacked(chain, after, known, Skipped(clusters, resume, to), to)
    ensures Unread(known, clusters, Skipped(clusters, resume, to), to)
  {
    forall c | c in known ensures c in resume && Backed(chain, after, c, Skipped(clusters, resume, to)[c], to) {
      if c in clusters {
        PageBacked(chain, history, clusters, c, resume[c], last, floor, to);
      } else {
        UnreadBacked(chain, history, clusters, c, resume[c], ScanStart(last, floor) - 1, last, to);
      }
    }
  }

  lemma SnapshotOnly(chain: seq<Log>, history: seq<Log>, after: seq<Log>, known: set<Address>, clusters: set<Address>, lo: int, to: int)
    requires OnlyKnownIngested(history, known) && clusters <= known
    requires after == history + Select(chain, Clusters(clusters), lo, to)
    ensures OnlyKnownIngested(after, known)
  {
    forall c: Address | c !in known ensures Filter(after, Only(c)) == [] {
      OthersUntouched(chain, history, clusters, lo, to, c);
    }
  }

  /** A page of the listed clusters goes to the read model, and the watermark moves. */
  lemma PageTaken(chain: seq<Log>, history: seq<Log>, after: seq<Log>, known: set<Address>, projected: set<Address>, clusters: set<Address>,
                  resume: map<Address, Resume>, awaited: map<Address, Backfill>, last: nat, floor: nat, to: nat)
    requires ChainOrdered(chain) && (forall l | l in chain :: AtLeast(floor, 1) <= l.block)
    requires last < U64_MAX && last <= to && clusters <= known
    requires AllBacked(chain, history, known, resume, last) && OnlyKnownIngested(history, known)
    requires Awaiting(chain, known, projected, resume, awaited, last) && Unread(known, clusters, resume, last)
    requires after == history + Filter(Select(chain, Clusters(clusters), ScanStart(last, floor) - 1, to), Clusters(projected))
    ensures var next := Skipped(clusters * projected, resume, to);
            && AllBacked(chain, after, known, next, to) && OnlyKnownIngested(after, known) && Awaiting(chain, known, projected, next, awaited, to)
            && Unread(known, clusters, next, to) && SameReads(clusters, resume, next) && Kept(clusters * projected, resume, next)
  {
    var taken := clusters * projected;
    ProjectedShare(chain, clusters, projected, ScanStart(last, floor) - 1, to);
    ListedUnread(chain, known, projected, clusters, resume, awaited, last);
    SnapshotAll(chain, history, after, known, taken, resume, last, floor, to);
    SnapshotOnly(chain, history, after, known, taken, ScanStart(last, floor) - 1, to);
    SkippedAwaiting(chain, known, projected, clusters, resume, awaited, last, to);
  }

  /** The backfill goes to the read model, which lists the cluster. */
  lemma HandedOver(chain: seq<Log>, history: seq<Log>, after: seq<Log>, known: set<Address>, projected: set<Address>, resume: map<Address, Resume>,
                   awaited: map<Address, Backfill>, c: Address, last: nat)
    requires AllBacked(chain, history, known, resume, last) && OnlyKnownIngested(history, known)
    requires Awaiting(chain, known, projected, resume, awaited, last) && c in awaited && c in projected
    requires after == history + Filter(awaited[c].logs, Clusters(projected))
    ensures c in resume
    ensures AllBacked(chain, after, known, resume[c := Resume(awaited[c].through, resume[c].from, last)], last) && OnlyKnownIngested(after, known)
    ensures Awaiting(chain, known, projected, resume[c := Resume(awaited[c].through, resume[c].from, last)], awaited - {c}, last)
    ensures Filter(after, Only(c)) == Filter(history, Only(c)) + Select(chain, Only(c), 0, awaited[c].through)
  {
    var through := awaited[c].through;
    assert AwaitingOne(chain, c, c in projected, resume[c], awaited, last);
    ProjectedShare(chain, {c}, projected, 0, through);
    assert {c} * projected == {c};
    HandedAll(chain, history, known, resume, c, through, last);
    HandedAwaiting(chain, known, projected, resume, awaited, c, through, last);
    BackfillBacks(chain, history, c, resume[c], through, last);
    SnapshotOnly(chain, history, after, known, {c}, 0, through);
  }

  lemma SnapshotIdle(chain: seq<Log>, history: seq<Log>, known: set<Address>, clusters: set<Address>, resume: map<Address, Resume>, last: nat, floor: nat, to: nat)
    requires ChainOrdered(chain) && (forall l | l in chain :: AtLeast(floor, 1) <= l.block)
    requires last < U64_MAX && last <= to && clusters <= known && (to < ScanStart(last, floor) || clusters == {})
    requires AllBacked(chain, history, known, resume, last) && Unread(known, clusters, resume, last)
    ensures AllBacked(chain, history, known, Skipped(clusters, resume, to), to)
    ensures Unread(known, clusters, Skipped(clusters, resume, to), to)
  {
    forall c | c in known ensures c in resume && Backed(chain, history, c, Skipped(clusters, resume, to)[c], to) {
      if c in clusters {
        GapIsEmpty(chain, Only(c), last, floor, to);
        IdleBacked(chain, history, c, resume[c], last, to);
      } else {
        MovedShare(chain, c, resume[c], last, to);
      }
    }
  }

  /** A watermark move over blocks the tick has nothing to read in. */
  lemma IdleStreams(chain: seq<Log>, streams: map<nat, Stream>, heard: map<nat, nat>, clusters: set<Address>, known: set<Address>,
                    last: nat, floor: nat, to: nat)
    requires ChainOrdered(chain) && (forall l | l in chain :: AtLeast(floor, 1) <= l.block)
    requires last < U64_MAX && last <= to && (to < ScanStart(last, floor) || clusters == {})
    requires AllDelivered(chain, streams, heard, known, last) && Unheard(streams, heard, clusters, last)
    ensures AllDelivered(chain, streams, HeardAfter(streams, heard, clusters, to), known, to)
    ensures Unheard(streams, HeardAfter(streams, heard, clusters, to), clusters, to)
  {
    forall s | s in streams ensures s in heard && OnTrack(chain, streams[s], HeardAfter(streams, heard, clusters, to)[s], known, to) {
      assert OnTrack(chain, streams[s], heard[s], known, last);
      if streams[s].sub.cluster in clusters {
        GapIsEmpty(chain, Reader(streams[s].sub), last, floor, to);
        IdleDelivered(chain, Hearing(streams[s], heard[s]), last, to);
      } else {
        SilentDelivered(chain, streams[s], to);
      }
    }
  }

  /** Where every session's cluster is listed, nobody's deliveries start later. */
  lemma AllListed(chain: seq<Log>, streams: map<nat, Stream>, heard: map<nat, nat>, known: set<Address>, last: nat, to: nat)
    requires AllDelivered(chain, streams, heard, known, last)
    ensures Unheard(streams, heard, known, last) && HeardAfter(streams, heard, known, to) == heard
  {
    forall s | s in streams ensures streams[s].sub.cluster in known { assert OnTrack(chain, streams[s], heard[s], known, last); }
  }

  /** During the boot scan every cluster has been read through the same block and the watermark is still zero. */
  predicate ReadThrough(resume: map<Address, Resume>, known: set<Address>, through: nat) {
    forall c | c in known :: c in resume && resume[c] == Resume(through, 0, 0)
  }

  function AllThrough(known: set<Address>, r: Resume): (m: map<Address, Resume>) {
    map c | c in known :: r
  }

  /** With everything read through one block nothing is awaited. */
  lemma AllThroughSettled(chain: seq<Log>, known: set<Address>, r: Resume, last: nat)
    requires IsPrompt(r)
    ensures Awaiting(chain, known, known, AllThrough(known, r), map[], last) && AllPrompt(known, AllThrough(known, r))
  {
    forall c | c in known ensures AwaitingOne(chain, c, c in known, AllThrough(known, r)[c], map[], last) {}
  }

  lemma BootPageAll(chain: seq<Log>, history: seq<Log>, after: seq<Log>, known: set<Address>, resume: map<Address, Resume>, through: nat, floor: nat, from: nat, to: nat)
    requires ChainOrdered(chain) && (forall l | l in chain :: AtLeast(floor, 1) <= l.block)
    requires AllBacked(chain, history, known, resume, 0) && ReadThrough(resume, known, through)
    requires 0 < from && through <= from - 1 <= to && (from - 1 == through || (through == 0 && from == ScanStart(0, floor)))
    requires after == history + Select(chain, Clusters(known), from - 1, to)
    ensures AllBacked(chain, after, known, AllThrough(known, Resume(to, 0, 0)), 0)
  {
    forall c | c in known ensures Backed(chain, after, c, Resume(to, 0, 0), 0) {
      NothingBetween(chain, Only(c), through);
      if from - 1 != through { GapIsEmpty(chain, Only(c), 0, floor, from - 1); }
      BootPage(chain, history, known, c, resume[c], from, to);
    }
  }

  lemma BootEndAll(chain: seq<Log>, history: seq<Log>, known: set<Address>, resume: map<Address, Resume>, through: nat, floor: nat, head: nat)
    requires ChainOrdered(chain) && (forall l | l in chain :: AtLeast(floor, 1) <= l.block)
    requires AllBacked(chain, history, known, resume, 0) && ReadThrough(resume, known, through)
    requires through == head || (through == 0 && head < ScanStart(0, floor)) || known == {}
    ensures AllBacked(chain, history, known, AllThrough(known, Resume(head, head, head)), head)
  {
    forall c | c in known ensures Backed(chain, history, c, Resume(head, head, head), head) {
      NothingBetween(chain, Only(c), through);
      if through != head { GapIsEmpty(chain, Only(c), 0, floor, head); }
      BootEnd(chain, history, c, resume[c], head);
    }
  }
}
