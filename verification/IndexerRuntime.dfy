/**
 * The indexer's boot, block-watcher and discovery loops. A tick may fail at any chain read and keeps what it had done until
 * then; steps of admissions and subscriptions may fall between the reads of a watcher tick.
 */
module IndexerRuntime {
  import opened IndexerChain
  import opened IndexerDelivery
  import opened IndexerIngest
  import ReadModel

  /** A chain read of a tick: the head, a cluster's metadata, a page of deployments, a page of logs. */
  datatype Read = Head | Metadata(cluster: Address) | DeploymentPage(from: nat) | LogPage(from: nat) | HistoryPage(cluster: Address, from: nat)

  /** Which reads of one tick succeed. */
  type Network = Read -> bool

  ghost predicate AllUp(net: Network) {
    forall read: Read :: net(read)
  }

  predicate FitsIn(head: nat, batch: nat, discoveryChunk: nat) {
    head + AtLeast(batch, 1) <= U64_MAX && head + AtLeast(discoveryChunk, 1) <= U64_MAX
  }

  /** A deployment and the head its pass had sampled; the pass only meets deployments up to that head. */
  predicate MayAdmit(world: World, batch: nat, discoveryChunk: nat, d: Deployment, through: nat) {
    d in world.deployments && d.block <= through && FitsIn(through, batch, discoveryChunk)
  }

  /**
   * What may happen between the reads of a watcher tick: a step of an admission, whose backfill was read through a head
   * sampled before, or a subscription with the watermark it had sampled.
   */
  datatype Meanwhile =
    | Reveal(deployment: Deployment, through: nat)
    | List(cluster: Address)
    | HandOver(cluster: Address)
    | Subscribe(cluster: Address, member: MemberId, checkpoints: bool, sampled: nat)

  ghost predicate MayHappen(world: World, batch: nat, discoveryChunk: nat, meanwhile: nat -> seq<Meanwhile>) {
    forall n, k: nat | k < |meanwhile(n)| :: MayHappenOne(world, batch, discoveryChunk, meanwhile(n)[k])
  }

  predicate MayHappenOne(world: World, batch: nat, discoveryChunk: nat, m: Meanwhile) {
    m.Reveal? ==> MayAdmit(world, batch, discoveryChunk, m.deployment, m.through)
  }

  class Runtime {
    const world: World
    const batch: nat
    const discoveryChunk: nat
    /** Sessions whose channel never fills up or closes. */
    const keepsUp: set<nat>
    var known: set<Address>
    /** The clusters the read model lists. */
    var projected: set<Address>
    /** Backfills read by the discovery pass and not handed over yet. */
    var awaited: map<Address, Backfill>
    /** Everything the read model has taken, in order; it drops logs of clusters it does not list. */
    var history: seq<Log>
    var lastIndexed: nat
    var lastFactory: nat
    var streams: map<nat, Stream>
    var nextSession: nat
    ghost var resume: map<Address, Resume>
    /** The block from which on each session has been sent everything that is its own. */
    ghost var heard: map<nat, nat>

    ghost predicate Fits(head: nat) {
      FitsIn(head, batch, discoveryChunk)
    }

    ghost predicate Ingested()
      reads this`known, this`projected, this`awaited, this`history, this`lastIndexed, this`lastFactory, this`resume
    {
      && lastIndexed < U64_MAX && lastFactory < U64_MAX
      && projected <= known
      && Awaiting(world.chain, known, projected, resume, awaited, lastIndexed)
      && AllBacked(world.chain, history, known, resume, lastIndexed)
      && OnlyKnownIngested(history, known)
      && Discovered(world.deployments, known, lastFactory)
    }

    ghost predicate ServedTo(block: nat)
      reads this`streams, this`heard, this`known
    {
      AllDelivered(world.chain, streams, heard, known, block)
    }

    ghost predicate KeepingUp()
      reads this`streams
    {
      KeptUp(streams, keepsUp)
    }

    ghost predicate Valid()
      reads this
    {
      && Ingested()
      && ServedTo(lastIndexed)
      && KeepingUp()
      && Numbered(streams.Keys, nextSession)
    }

    /** No cluster was admitted behind the watermark. */
    ghost predicate Prompt()
      reads this`known, this`resume
    {
      AllPrompt(known, resume)
    }

    constructor (world: World, batch: nat, discoveryChunk: nat, keepsUp: set<nat>)
      ensures Valid() && AtBoot() && Prompt()
      ensures this.world == world && this.batch == batch && this.discoveryChunk == discoveryChunk && this.keepsUp == keepsUp
    {
      this.world, this.batch, this.discoveryChunk, this.keepsUp := world, batch, discoveryChunk, keepsUp;
      known, projected, awaited, history, lastIndexed, lastFactory := {}, {}, map[], [], 0, 0;
      streams, nextSession, resume, heard := map[], 0, map[], map[];
    }

    ghost predicate AtBoot()
      reads this
    {
      known == {} && awaited == map[] && history == [] && lastIndexed == 0 && lastFactory == 0 && streams == map[]
    }

    /** A range read of the clusters' logs. */
    function Poll(clusters: set<Address>, from: nat, to: nat): seq<Log> {
      Select(world.chain, Clusters(clusters), from - 1, to)
    }

    // -------------------------------------------------------------- delivery

    /** A non-blocking send; one that fails ends the stream, and none fails to a session that keeps up. */
    method SendLive(s: nat, d: Delivery)
      requires s in streams
      modifies `streams
      ensures streams.Keys == old(streams.Keys)
      ensures Sent(old(streams[s]), streams[s], [d])
      ensures s in keepsUp && old(streams[s]).live ==> streams[s] == Stream(old(streams[s]).sub, old(streams[s]).delivered + [d], true)
      ensures forall t | t in streams && t != s :: streams[t] == old(streams[t])
    {
      var st := streams[s];
      if st.live {
        var accepted: bool;
        if s in keepsUp { accepted := true; } else { accepted :| true; }
        if accepted {
          streams := streams[s := Stream(st.sub, st.delivered + [d], true)];
          assert SentUpTo(st, streams[s], [d], 1);
        } else {
          streams := streams[s := Stream(st.sub, st.delivered, false)];
          assert SentUpTo(st, streams[s], [d], 0);
        }
      } else {
        assert st.delivered + [d][..0] == st.delivered;
        assert SentUpTo(st, streams[s], [d], 0);
      }
    }

    /** Offers one log to every session of its cluster for which it is relevant, in any order. */
    method PushLog(log: Log)
      requires KeepingUp()
      modifies `streams
      ensures Serving(old(streams), streams, {}, log)
      ensures KeepingUp()
    {
      ghost var was := streams;
      var todo := set s | s in streams;
      while todo != {}
        invariant Serving(was, streams, todo, log)
        invariant KeepingUp()
      {
        var s :| s in todo;
        var sub := streams[s].sub;
        if sub.cluster == log.cluster && RelevantFor(log.kind, sub.member) {
          SendLive(s, Pushed(log));
        } else {
          SentNothing(was[s]);
        }
        todo := todo - {s};
      }
    }

    /** Offers a checkpoint to every session of the cluster that understands them. */
    method PushCheckpoint(c: Address, through: nat)
      requires KeepingUp()
      modifies `streams
      ensures Marking(old(streams), streams, {}, c, through)
      ensures KeepingUp()
    {
      ghost var was := streams;
      var todo := set s | s in streams;
      while todo != {}
        invariant Marking(was, streams, todo, c, through)
        invariant KeepingUp()
      {
        var s :| s in todo;
        var sub := streams[s].sub;
        if sub.cluster == c && sub.checkpoints {
          SendLive(s, Checkpoint(through));
        } else {
          SentNothing(was[s]);
        }
        todo := todo - {s};
      }
    }

    method Dispatch(logs: seq<Log>, clusters: set<Address>, through: nat)
      requires KeepingUp()
      modifies `streams
      ensures AllSent(old(streams), streams, logs, clusters, through)
      ensures AllPageSent(old(streams), streams, logs, clusters, through)
      ensures KeepingUp()
    {
      ghost var was := streams;
      NothingServed(was, through);
      var i := 0;
      while i < |logs|
        invariant i <= |logs| && AllSent(was, streams, logs[..i], {}, through)
        invariant KeepingUp()
      {
        ghost var before := streams;
        PushLog(logs[i]);
        LogServed(was, before, streams, logs[..i], logs[i], through);
        assert logs[..i] + [logs[i]] == logs[..i + 1];
        i := i + 1;
      }
      assert logs[..i] == logs;
      DispatchCheckpoints(was, logs, clusters, through);
      AllSentPages(was, streams, logs, clusters, through);
    }

    /** After all logs of the page: one checkpoint per session that understands them. */
    method DispatchCheckpoints(ghost was: map<nat, Stream>, ghost logs: seq<Log>, clusters: set<Address>, through: nat)
      requires AllSent(was, streams, logs, {}, through)
      requires KeepingUp()
      modifies `streams
      ensures AllSent(was, streams, logs, clusters, through)
      ensures KeepingUp()
    {
      var todo := clusters;
      ghost var done: set<Address> := {};
      while todo != {}
        invariant done !! todo && done + todo == clusters && AllSent(was, streams, logs, done, through)
        invariant KeepingUp()
      {
        var c :| c in todo;
        ghost var before := streams;
        PushCheckpoint(c, through);
        ClusterMarked(was, before, streams, logs, done, c, through);
        todo, done := todo - {c}, done + {c};
      }
      assert done == clusters;
    }

    // -------------------------------------------------------------- discovery

    /** ingest_for_cache: the batch goes to the read model in order. */
    method IngestForCache(logs: seq<Log>)
      modifies `history
      ensures history == old(history) + Filter(logs, Clusters(projected))
    {
      var i := 0;
      while i < |logs|
        invariant i <= |logs| && history == old(history) + Filter(logs[..i], Clusters(projected))
      {
        assert logs[..i + 1][..i] == logs[..i];
        if logs[i].cluster in projected { history := history + [logs[i]]; }
        i := i + 1;
      }
      assert logs[..i] == logs;
    }

    method RecordDiscovered(c: Address) returns (inserted: bool)
      modifies `known, `projected
      ensures known == old(known) + {c} && projected == old(projected) + {c}
      ensures inserted <==> c !in old(known)
    {
      inserted := c !in known;
      known := known + {c};
      projected := projected + {c};
    }

    /** Reads a cluster's history page by page; any page may fail. */
    method Collect(c: Address, start: nat, through: nat, net: Network) returns (ok: bool, logs: seq<Log>)
      requires 0 < start && Fits(through)
      requires through >= start - 1
      ensures ok ==> logs == Select(world.chain, Only(c), start - 1, through)
      ensures AllUp(net) ==> ok
    {
      var ranges := ScanRanges(start, through, batch);
      logs := [];
      var i := 0;
      ghost var upTo: nat := start - 1;
      NothingBetween(world.chain, Only(c), start - 1);
      while i < |ranges|
        invariant i <= |ranges| && start - 1 <= upTo <= through
        invariant upTo == if i == 0 then start - 1 else ranges[i - 1].1
        invariant logs == Select(world.chain, Only(c), start - 1, upTo)
      {
        if !net(HistoryPage(c, ranges[i].0)) { return false, []; }
        SelectAdjacent(world.chain, Only(c), start - 1, upTo, ranges[i].1);
        logs := logs + Poll({c}, ranges[i].0, ranges[i].1);
        upTo := ranges[i].1;
        i := i + 1;
      }
      ok := true;
    }

    // -------------------------------------------------------------- admission

    /** The watcher sees the cluster, whose backfill has been read. */
    method RevealCluster(c: Address, b: Backfill)
      requires Ingested() && c !in known && Collected(world.chain, c, b)
      modifies `known, `awaited, `resume
      ensures Ingested() && known == old(known) + {c} && awaited == old(awaited)[c := b] && resume == old(resume)[c := Pending(lastIndexed)]
    {
      RevealedAll(world.chain, history, known, projected, resume, awaited, c, b, lastIndexed);
      known, awaited, resume := known + {c}, awaited[c := b], resume[c := Pending(lastIndexed)];
    }

    /** The read model lists the cluster. */
    method ListCluster(c: Address)
      requires Ingested() && c in known
      modifies `projected
      ensures Ingested() && projected == old(projected) + {c}
    {
      projected := projected + {c};
    }

    /** The read model takes the backfill. */
    method HandOverBackfill(c: Address)
      requires Ingested() && c in awaited && c in projected
      modifies `history, `awaited, `resume
      ensures Ingested() && awaited == old(awaited) - {c}
      ensures c in old(resume) && resume == old(resume)[c := Resume(old(awaited)[c].through, old(resume)[c].from, lastIndexed)]
      ensures Filter(history, Only(c)) == Filter(old(history), Only(c)) + Select(world.chain, Only(c), 0, old(awaited)[c].through)
    {
      ghost var before := history;
      IngestForCache(awaited[c].logs);
      HandedOver(world.chain, before, history, known, projected, resume, awaited, c, lastIndexed);
      awaited, resume := awaited - {c}, resume[c := Resume(awaited[c].through, resume[c].from, lastIndexed)];
    }

    /**
     * Backfills a discovered cluster and only then makes it known. A failed backfill changes nothing, so a later
     * pass retries it. The head sampled by the pass may be behind the watermark by now. Undisturbed, the three steps of
     * the admission are one.
     */
    method Hydrate(d: Deployment, through: nat, net: Network) returns (ok: bool)
      requires Valid() && d in world.deployments && d.block <= through && Fits(through)
      modifies `known, `projected, `awaited, `history, `resume
      ensures Valid()
      ensures AllUp(net) ==> ok
      ensures old(known) <= known && (ok ==> known == old(known) + {d.cluster})
      ensures ok && d.cluster !in old(known) ==> Filter(history, Only(d.cluster)) == Select(world.chain, Only(d.cluster), 0, through)
      ensures ok && d.cluster !in old(known) ==>
        d.cluster in resume && resume[d.cluster] == Resume(through, lastIndexed, lastIndexed) && d.cluster in projected
      ensures SameReads(old(known), old(resume), resume)
      ensures old(Prompt()) && lastIndexed <= through ==> Prompt()
      ensures !ok ==> known == old(known) && projected == old(projected) && history == old(history) && resume == old(resume)
    {
      if d.cluster in known && d.cluster in projected { return true; }
      if !net(Metadata(d.cluster)) { return false; }
      var start := AtLeast(d.block, world.floor);
      assert d.block == start;
      var read, logs := Collect(d.cluster, start, through, net);
      if !read { return false; }
      BeginDeployment(d, start);
      BackfillIsWhole(world.chain, d.cluster, start, through);
      Admit(d.cluster, Backfill(logs, through));
      ok := true;
    }

    /** A deployed cluster has no log before the block its scan starts at. */
    lemma BeginDeployment(d: Deployment, start: nat)
      requires d in world.deployments && start == d.block
      ensures 0 < start && NoneBefore(world.chain, d.cluster, start)
    {
    }

    /** The three steps in a row. */
    method Admit(c: Address, b: Backfill)
      requires Ingested() && c !in projected && Collected(world.chain, c, b)
      modifies `known, `projected, `awaited, `history, `resume
      ensures Ingested() && known == old(known) + {c} && projected == old(projected) + {c}
      ensures Filter(history, Only(c)) == Select(world.chain, Only(c), 0, b.through)
      ensures resume == old(resume)[c := Resume(b.through, lastIndexed, lastIndexed)]
      ensures c in old(known) ==> c in old(resume) && old(resume)[c].Pending?
    {
      UpdatedTwice(resume, c, Pending(lastIndexed), Resume(b.through, lastIndexed, lastIndexed));
      Begin(c, b);
      Complete(c, b);
    }

    method Complete(c: Address, b: Backfill)
      requires Ingested() && c in known && c in awaited && awaited[c] == b
      requires c in resume && resume[c] == Pending(lastIndexed) && Filter(history, Only(c)) == []
      modifies `projected, `awaited, `history, `resume
      ensures Ingested() && projected == old(projected) + {c}
      ensures Filter(history, Only(c)) == Select(world.chain, Only(c), 0, b.through)
      ensures resume == old(resume)[c := Resume(b.through, lastIndexed, lastIndexed)]
    {
      ghost var before := Filter(history, Only(c));
      ListCluster(c);
      HandOverBackfill(c);
      EmptyFirst(before, before, Select(world.chain, Only(c), 0, b.through));
    }

    /** A cluster revealed before and not listed yet is taken on from there. */
    method Begin(c: Address, b: Backfill)
      requires Ingested() && c !in projected && Collected(world.chain, c, b)
      modifies `known, `awaited, `resume
      ensures Ingested() && known == old(known) + {c} && c in awaited && awaited[c] == b
      ensures resume == old(resume)[c := Pending(lastIndexed)] && Filter(history, Only(c)) == []
      ensures c in old(known) ==> c in old(resume) && old(resume)[c].Pending?
    {
      if c in known {
        assert AwaitingOne(world.chain, c, c in projected, resume[c], awaited, lastIndexed);
        Replace(c, b);
      } else {
        RevealCluster(c, b);
      }
      assert Backed(world.chain, history, c, Pending(lastIndexed), lastIndexed);
      NothingBetween(world.chain, Only(c), lastIndexed);
    }

    /** A later pass has read the backfill again. */
    method Replace(c: Address, b: Backfill)
      requires Ingested() && c in awaited && Collected(world.chain, c, b)
      modifies `awaited
      ensures Ingested() && awaited == old(awaited)[c := b]
    {
      ghost var was := awaited;
      awaited := awaited[c := b];
      forall x | x in known ensures AwaitingOne(world.chain, x, x in projected, resume[x], awaited, lastIndexed) {
        assert AwaitingOne(world.chain, x, x in projected, resume[x], was, lastIndexed);
      }
    }

    /**
     * One pass over the factory's deployments since the last complete pass, through a head sampled when the pass began;
     * watcher ticks may have moved the watermark past it since.
     */
    method DiscoveryTick(head: nat, net: Network) returns (ok: bool)
      requires Valid() && Fits(head)
      modifies `known, `projected, `awaited, `history, `resume, `lastFactory
      ensures Valid() && old(known) <= known
      ensures SameReads(old(known), old(resume), resume)
      ensures old(Prompt()) && lastIndexed <= head ==> Prompt()
      ensures ok ==> Discovered(world.deployments, known, head)
      ensures !ok ==> lastFactory == old(lastFactory)
      ensures ok ==> lastFactory == if old(lastFactory) < head && world.floor <= head then head else old(lastFactory)
      ensures AllUp(net) ==> ok
    {
      if !net(Head) { return false; }
      var from := ScanStart(lastFactory, world.floor);
      if from <= head {
        var ranges := ScanRanges(from, head, discoveryChunk);
        var i := 0;
        ghost var next := from;
        while i < |ranges|
          invariant i <= |ranges| && Valid() && old(known) <= known && lastFactory == old(lastFactory)
          invariant SameReads(old(known), old(resume), resume) && (old(Prompt()) && lastIndexed <= head ==> Prompt())
          invariant next == if i == 0 then from else ranges[i - 1].1 + 1
          invariant Discovered(world.deployments, known, next - 1)
        {
          var done := DiscoverPage(ranges[i].0, ranges[i].1, head, net);
          if !done { return false; }
          next := ranges[i].1 + 1;
          i := i + 1;
        }
        lastFactory := head;
      }
      ok := true;
    }

    method DiscoverPage(from: nat, to: nat, head: nat, net: Network) returns (ok: bool)
      requires Valid() && Fits(head) && to <= head
      requires Discovered(world.deployments, known, from - 1)
      modifies `known, `projected, `awaited, `history, `resume
      ensures Valid() && old(known) <= known
      ensures SameReads(old(known), old(resume), resume)
      ensures old(Prompt()) && lastIndexed <= head ==> Prompt()
      ensures ok ==> Discovered(world.deployments, known, to)
      ensures AllUp(net) ==> ok
    {
      if !net(DeploymentPage(from)) { return false; }
      var found := FoundIn(world.deployments, from, to);
      forall k | 0 <= k < |found| ensures found[k] in world.deployments && found[k].block <= head {
        FoundInMembers(world.deployments, from, to, found[k]);
      }
      ok := HydrateAll(found, head, net);
      if ok { PageDiscovered(world.deployments, known, from, to); }
    }

    method HydrateAll(found: seq<Deployment>, head: nat, net: Network) returns (ok: bool)
      requires Valid() && Fits(head)
      requires FromFactory(found, world.deployments, head)
      modifies `known, `projected, `awaited, `history, `resume
      ensures Valid() && old(known) <= known
      ensures ok ==> AllKnown(found, |found|, known)
      ensures SameReads(old(known), old(resume), resume)
      ensures old(Prompt()) && lastIndexed <= head ==> Prompt()
      ensures AllUp(net) ==> ok
    {
      var i := 0;
      while i < |found|
        invariant i <= |found| && Valid() && old(known) <= known
        invariant AllKnown(found, i, known)
        invariant SameReads(old(known), old(resume), resume) && (old(Prompt()) && lastIndexed <= head ==> Prompt())
      {
        ghost var before := known;
        var done := Hydrate(found[i], head, net);
        if !done { return false; }
        KnownMore(found, i, before, known);
        i := i + 1;
      }
      ok := true;
    }

    // -------------------------------------------------------------- the block watcher

    /** No page has been read for the clusters the running tick does not list. */
    ghost predicate Unlisted(clusters: set<Address>)
      reads this`known, this`resume, this`lastIndexed
    {
      clusters <= known && Unread(known, clusters, resume, lastIndexed)
    }

    /** The next page is read, ingested, and the watermark published before anything is delivered. */
    method ReadPage(to: nat, clusters: set<Address>) returns (logs: seq<Log>)
      requires Ingested() && to < U64_MAX && ScanStart(lastIndexed, world.floor) <= to
      requires Unlisted(clusters)
      modifies `history, `lastIndexed, `resume
      ensures Ingested() && lastIndexed == to && Unlisted(clusters)
      ensures SameReads(clusters, old(resume), resume) && Kept(clusters * projected, old(resume), resume)
      ensures logs == Select(world.chain, Clusters(clusters), ScanStart(old(lastIndexed), world.floor) - 1, to)
    {
      logs := Poll(clusters, ScanStart(lastIndexed, world.floor), to);
      ghost var before := history;
      IngestForCache(logs);
      PageTaken(world.chain, before, history, known, projected, clusters, resume, awaited, lastIndexed, world.floor, to);
      resume := Skipped(clusters * projected, resume, to);
      lastIndexed := to;
    }

    /** The sessions of clusters the running tick does not list have been sent nothing. */
    ghost predicate Deaf(clusters: set<Address>, block: nat)
      reads this`streams, this`heard
    {
      Unheard(streams, heard, clusters, block)
    }

    /** Delivery of the page of these clusters that moved the watermark from `last`. */
    method DeliverPage(logs: seq<Log>, clusters: set<Address>, through: nat, ghost last: nat)
      requires last < U64_MAX && last <= through && ServedTo(last) && Deaf(clusters, last)
      requires logs == Select(world.chain, Clusters(clusters), ScanStart(last, world.floor) - 1, through)
      requires KeepingUp()
      modifies `streams
      ensures AllDelivered(world.chain, streams, HeardAfter(old(streams), heard, clusters, through), known, through)
      ensures Unheard(streams, HeardAfter(old(streams), heard, clusters, through), clusters, through)
      ensures Grew(old(streams), streams) && Marked(streams, keepsUp, clusters, through)
      ensures KeepingUp() && streams.Keys == old(streams.Keys)
    {
      ghost var was := streams;
      Dispatch(logs, clusters, through);
      SentGrew(was, streams, logs, clusters, through);
      PageMarked(was, streams, logs, clusters, keepsUp, through);
      PageAllDelivered(world.chain, was, streams, heard, logs, clusters, known, last, world.floor, through);
    }

    /** A page of a tick over the clusters that were known when it began. */
    method WatchPage(to: nat, clusters: set<Address>)
      requires Valid() && to < U64_MAX && ScanStart(lastIndexed, world.floor) <= to
      requires Unlisted(clusters) && Deaf(clusters, lastIndexed)
      modifies `history, `lastIndexed, `streams, `resume, `heard
      ensures Valid() && lastIndexed == to && Grew(old(streams), streams) && streams.Keys == old(streams.Keys)
      ensures Unlisted(clusters) && Deaf(clusters, to) && Marked(streams, keepsUp, clusters, to)
      ensures Kept(clusters * projected, old(resume), resume)
      ensures SameReads(clusters, old(resume), resume) && SameHeard(clusters, old(streams), old(heard), heard)
    {
      ghost var last := lastIndexed;
      var logs := ReadPage(to, clusters);
      assert Numbered(streams.Keys, nextSession);
      DeliverNext(logs, clusters, to, last);
    }

    method DeliverNext(logs: seq<Log>, clusters: set<Address>, through: nat, ghost last: nat)
      requires last < U64_MAX && last <= through && ServedTo(last) && Deaf(clusters, last)
      requires logs == Select(world.chain, Clusters(clusters), ScanStart(last, world.floor) - 1, through)
      requires KeepingUp()
      modifies `streams, `heard
      ensures ServedTo(through) && Deaf(clusters, through) && Grew(old(streams), streams) && Marked(streams, keepsUp, clusters, through)
      ensures KeepingUp() && streams.Keys == old(streams.Keys) && SameHeard(clusters, old(streams), old(heard), heard)
    {
      ghost var was := streams;
      DeliverPage(logs, clusters, through, last);
      ListedKept(clusters, was, heard, through);
      heard := HeardAfter(was, heard, clusters, through);
    }

    /** The last step of a tick, over blocks it had nothing to read in. */
    method Finish(head: nat, clusters: set<Address>)
      requires Valid() && lastIndexed <= head < U64_MAX && (head < ScanStart(lastIndexed, world.floor) || clusters == {})
      requires Unlisted(clusters) && Deaf(clusters, lastIndexed)
      modifies `lastIndexed, `resume, `heard
      ensures Valid() && lastIndexed == head && Unlisted(clusters) && Deaf(clusters, head)
      ensures Kept(clusters * projected, old(resume), resume)
      ensures SameReads(clusters, old(resume), resume) && SameHeard(clusters, streams, old(heard), heard)
    {
      ghost var taken := clusters * projected;
      ListedUnread(world.chain, known, projected, clusters, resume, awaited, lastIndexed);
      SnapshotIdle(world.chain, history, known, taken, resume, lastIndexed, world.floor, head);
      SkippedAwaiting(world.chain, known, projected, clusters, resume, awaited, lastIndexed, head);
      FinishStreams(head, clusters);
      resume := Skipped(taken, resume, head);
      lastIndexed := head;
      assert Ingested();
    }

    ghost method FinishStreams(head: nat, clusters: set<Address>)
      requires ServedTo(lastIndexed) && Deaf(clusters, lastIndexed)
      requires lastIndexed <= head < U64_MAX && (head < ScanStart(lastIndexed, world.floor) || clusters == {})
      modifies `heard
      ensures ServedTo(head) && Deaf(clusters, head) && SameHeard(clusters, streams, old(heard), heard)
    {
      IdleStreams(world.chain, streams, heard, clusters, known, lastIndexed, world.floor, head);
      ListedKept(clusters, streams, heard, head);
      heard := HeardAfter(streams, heard, clusters, head);
    }

    /** A tick nobody interferes with. */
    method Tick(head: nat, net: Network) returns (ok: bool)
      requires Valid() && Fits(head)
      modifies `history, `lastIndexed, `streams, `resume, `heard
      ensures Valid() && Grew(old(streams), streams) && streams.Keys == old(streams.Keys)
      ensures Kept(projected, old(resume), resume)
      ensures SameReads(known, old(resume), resume) && SameHeard(known, old(streams), old(heard), heard)
      ensures old(lastIndexed) <= lastIndexed && (lastIndexed <= head || lastIndexed == old(lastIndexed))
      ensures ok ==> head <= lastIndexed
      ensures AllUp(net) ==> ok
    {
      GrewNot(streams);
      AllListed(world.chain, streams, heard, known, lastIndexed, head);
      if !net(Head) { return false; }
      if head <= lastIndexed { return true; }
      ok := WatchPages(head, net);
      if ok {
        ghost var was, before := streams, heard;
        Finish(head, known);
        HeardThen(known, old(streams), was, old(heard), before, heard);
      }
    }

    /** What such a tick has sent. */
    method WatchTick(head: nat, net: Network) returns (ok: bool)
      requires Valid() && Fits(head)
      modifies `history, `lastIndexed, `streams, `resume, `heard
      ensures Valid() && Grew(old(streams), streams) && streams.Keys == old(streams.Keys)
      ensures Kept(projected, old(resume), resume)
      ensures SameReads(known, old(resume), resume) && SameHeard(known, old(streams), old(heard), heard)
      ensures old(lastIndexed) <= lastIndexed && (lastIndexed <= head || lastIndexed == old(lastIndexed))
      ensures ok ==> head <= lastIndexed
      ensures AllUp(net) ==> ok
      ensures AllServed(world.chain, streams, keepsUp * streams.Keys, old(lastIndexed), lastIndexed)
    {
      ghost var was, before, last := streams, heard, lastIndexed;
      ok := Tick(head, net);
      TickServed(world.chain, was, streams, before, heard, known, known, keepsUp, last, lastIndexed);
    }

    method WatchPages(head: nat, net: Network) returns (ok: bool)
      requires Valid() && Fits(head) && lastIndexed <= head && Deaf(known, lastIndexed)
      modifies `history, `lastIndexed, `streams, `resume, `heard
      ensures Valid() && Grew(old(streams), streams) && streams.Keys == old(streams.Keys) && Deaf(known, lastIndexed)
      ensures Kept(projected, old(resume), resume)
      ensures SameReads(known, old(resume), resume) && SameHeard(known, old(streams), old(heard), heard)
      ensures old(lastIndexed) <= lastIndexed <= head
      ensures ok ==> head < ScanStart(lastIndexed, world.floor) || known == {}
      ensures AllUp(net) ==> ok
    {
      GrewNot(streams);
      var from := ScanStart(lastIndexed, world.floor);
      while known != {} && from <= head
        invariant Valid() && old(lastIndexed) <= lastIndexed <= head && from == ScanStart(lastIndexed, world.floor)
        invariant Deaf(known, lastIndexed) && Grew(old(streams), streams) && streams.Keys == old(streams.Keys)
        invariant SameReads(known, old(resume), resume) && SameHeard(known, old(streams), old(heard), heard)
        invariant Kept(projected, old(resume), resume)
        decreases head + 1 - from
      {
        var to := Min(from + AtLeast(batch, 1) - 1, head);
        if !net(LogPage(from)) { return false; }
        ghost var was, before := streams, heard;
        WatchPage(to, known);
        GrewThen(old(streams), was, streams);
        HeardThen(known, old(streams), was, old(heard), before, heard);
        from := to + 1;
      }
      ok := true;
    }

    // -------------------------------------------------------------- a watcher tick with others at work

    /** What the others do between two reads of a tick over these clusters. */
    method Interlude(meanwhile: seq<Meanwhile>, clusters: set<Address>)
      requires Valid() && Unlisted(clusters) && Deaf(clusters, lastIndexed)
      requires forall k: nat | k < |meanwhile| :: MayHappenOne(world, batch, discoveryChunk, meanwhile[k])
      modifies `known, `projected, `awaited, `history, `resume, `streams, `nextSession, `heard
      ensures Valid() && Unlisted(clusters) && Deaf(clusters, lastIndexed) && old(known) <= known && Grew(old(streams), streams)
      ensures SameReads(clusters, old(resume), resume) && SameHeard(clusters, old(streams), old(heard), heard)
    {
      var i := 0;
      GrewNot(streams);
      while i < |meanwhile|
        invariant i <= |meanwhile| && Valid() && Unlisted(clusters) && Deaf(clusters, lastIndexed)
        invariant old(known) <= known && Grew(old(streams), streams)
        invariant SameReads(clusters, old(resume), resume) && SameHeard(clusters, old(streams), old(heard), heard)
      {
        ghost var before, was := streams, heard;
        assert MayHappenOne(world, batch, discoveryChunk, meanwhile[i]);
        Intervene(meanwhile[i], clusters);
        GrewThen(old(streams), before, streams);
        HeardThen(clusters, old(streams), before, old(heard), was, heard);
        i := i + 1;
      }
    }

    method Intervene(m: Meanwhile, clusters: set<Address>)
      requires Valid() && Unlisted(clusters) && Deaf(clusters, lastIndexed) && MayHappenOne(world, batch, discoveryChunk, m)
      modifies `known, `projected, `awaited, `history, `resume, `streams, `nextSession, `heard
      ensures Valid() && Unlisted(clusters) && Deaf(clusters, lastIndexed) && old(known) <= known && Grew(old(streams), streams)
      ensures SameReads(clusters, old(resume), resume) && SameHeard(clusters, old(streams), old(heard), heard)
    {
      match m {
        case Subscribe(cluster, member, checkpoints, sampled) =>
          SubscribeOne(cluster, member, checkpoints, sampled, clusters);
        case _ =>
          GrewNot(streams);
          AdmissionStep(m, clusters);
      }
    }

    /** One step of an admission, where it applies. */
    method AdmissionStep(m: Meanwhile, clusters: set<Address>)
      requires Valid() && Unlisted(clusters) && !m.Subscribe?
      modifies `known, `projected, `awaited, `history, `resume
      ensures Valid() && Unlisted(clusters) && old(known) <= known && SameReads(clusters, old(resume), resume)
    {
      match m {
        case Reveal(d, through) => RevealOne(d.cluster, through, clusters);
        case List(c) =>
          if c in known { ListCluster(c); }
        case HandOver(c) =>
          if c in awaited && c in projected { HandOverOne(c, clusters); }
      }
    }

    /** Undisturbed, a cluster becomes visible to the watcher and is listed by the read model at once. */
    method StartAdmission(c: Address, through: nat)
      requires Valid() && c !in known
      modifies `known, `projected, `awaited, `resume
      ensures Valid() && c in known && c in projected && c in awaited && awaited[c].through == through
      ensures c in resume && resume[c] == Pending(lastIndexed)
    {
      RevealServed(c, through);
      ListCluster(c);
      assert ServedTo(lastIndexed) && KeepingUp();
    }

    method RevealServed(c: Address, through: nat)
      requires Valid() && c !in known
      modifies `known, `awaited, `resume
      ensures Valid() && known == old(known) + {c} && resume == old(resume)[c := Pending(lastIndexed)]
      ensures c in awaited && awaited[c].through == through
    {
      RevealCluster(c, Backfill(Poll({c}, 1, through), through));
      assert Ingested() && KeepingUp();
    }

    method EndAdmission(c: Address)
      requires Valid() && c in awaited && c in projected && c in known && c in resume && resume[c].Pending?
      modifies `history, `awaited, `resume
      ensures Valid()
      ensures Filter(history, Only(c)) == Select(world.chain, Only(c), old(resume)[c].from, lastIndexed) + Select(world.chain, Only(c), 0, old(awaited)[c].through)
    {
      assert Backed(world.chain, history, c, resume[c], lastIndexed);
      HandOverBackfill(c);
    }

    method RevealOne(c: Address, through: nat, clusters: set<Address>)
      requires Valid() && Unlisted(clusters)
      modifies `known, `awaited, `resume
      ensures Valid() && Unlisted(clusters) && old(known) <= known && SameReads(clusters, old(resume), resume)
    {
      if c !in known { RevealServed(c, through); }
    }

    method HandOverOne(c: Address, clusters: set<Address>)
      requires Valid() && Unlisted(clusters) && c in awaited && c in projected
      modifies `history, `awaited, `resume
      ensures Valid() && Unlisted(clusters) && SameReads(clusters, old(resume), resume)
    {
      assert AwaitingOne(world.chain, c, c in projected, resume[c], awaited, lastIndexed);
      HandOverBackfill(c);
    }

    /** A subscription to a cluster not known yet is refused. */
    method SubscribeOne(cluster: Address, member: MemberId, checkpoints: bool, sampled: nat, clusters: set<Address>)
      requires Valid() && Deaf(clusters, lastIndexed)
      modifies `streams, `nextSession, `heard
      ensures Valid() && Deaf(clusters, lastIndexed) && Grew(old(streams), streams)
      ensures SameHeard(clusters, old(streams), old(heard), heard)
    {
      GrewNot(streams);
      if cluster in known {
        var _ := Attach(cluster, member, checkpoints, Min(sampled, lastIndexed));
      }
    }

    /**
     * A watcher tick before whose pages admissions make steps and sessions subscribe. The tick reads its cluster list once,
     * so when it completes no page has been read for the clusters it does not list, and nothing has been sent to their
     * sessions.
     */
    method SharedTick(head: nat, net: Network, meanwhile: nat -> seq<Meanwhile>) returns (ok: bool)
      requires Valid() && Fits(head) && MayHappen(world, batch, discoveryChunk, meanwhile)
      modifies `known, `projected, `awaited, `history, `resume, `lastIndexed, `streams, `nextSession, `heard
      ensures Valid() && old(known) <= known && Grew(old(streams), streams)
      ensures SameReads(old(known), old(resume), resume) && SameHeard(old(known), old(streams), old(heard), heard)
      ensures ok ==> Unread(known, old(known), resume, lastIndexed) && Unheard(streams, heard, old(known), lastIndexed)
      ensures old(lastIndexed) <= lastIndexed && (lastIndexed <= head || lastIndexed == old(lastIndexed))
      ensures ok ==> head <= lastIndexed
      ensures AllUp(net) ==> ok
    {
      GrewNot(streams);
      AllListed(world.chain, streams, heard, known, lastIndexed, head);
      if !net(Head) { return false; }
      if head <= lastIndexed { return true; }
      var clusters := known;
      ok := SharedPages(head, net, meanwhile, clusters);
      if ok {
        ghost var was, before := streams, heard;
        Finish(head, clusters);
        HeardThen(clusters, old(streams), was, old(heard), before, heard);
      }
    }

    /** What such a tick has sent: the sessions it began with are served like by an undisturbed one. */
    method SharedWatchTick(head: nat, net: Network, meanwhile: nat -> seq<Meanwhile>) returns (ok: bool)
      requires Valid() && Fits(head) && MayHappen(world, batch, discoveryChunk, meanwhile)
      modifies `known, `projected, `awaited, `history, `resume, `lastIndexed, `streams, `nextSession, `heard
      ensures Valid() && old(known) <= known && Grew(old(streams), streams)
      ensures SameReads(old(known), old(resume), resume) && SameHeard(old(known), old(streams), old(heard), heard)
      ensures ok ==> Unread(known, old(known), resume, lastIndexed) && Unheard(streams, heard, old(known), lastIndexed)
      ensures old(lastIndexed) <= lastIndexed && (lastIndexed <= head || lastIndexed == old(lastIndexed))
      ensures ok ==> head <= lastIndexed
      ensures AllUp(net) ==> ok
      ensures AllServed(world.chain, streams, keepsUp * old(streams).Keys, old(lastIndexed), lastIndexed)
    {
      ghost var was, before, last, listed := streams, heard, lastIndexed, known;
      ok := SharedTick(head, net, meanwhile);
      TickServed(world.chain, was, streams, before, heard, listed, known, keepsUp, last, lastIndexed);
    }

    method PageMeanwhile(from: nat, to: nat, net: Network, meanwhile: seq<Meanwhile>, clusters: set<Address>) returns (ok: bool)
      requires Valid() && to < U64_MAX && from == ScanStart(lastIndexed, world.floor) <= to
      requires Unlisted(clusters) && Deaf(clusters, lastIndexed)
      requires forall k: nat | k < |meanwhile| :: MayHappenOne(world, batch, discoveryChunk, meanwhile[k])
      modifies `known, `projected, `awaited, `history, `resume, `lastIndexed, `streams, `nextSession, `heard
      ensures Valid() && Unlisted(clusters) && Deaf(clusters, lastIndexed)
      ensures old(known) <= known && Grew(old(streams), streams)
      ensures SameReads(clusters, old(resume), resume) && SameHeard(clusters, old(streams), old(heard), heard)
      ensures lastIndexed == if ok then to else old(lastIndexed)
      ensures AllUp(net) ==> ok
    {
      Interlude(meanwhile, clusters);
      if !net(LogPage(from)) { return false; }
      ghost var was, before := streams, heard;
      WatchPage(to, clusters);
      GrewThen(old(streams), was, streams);
      HeardThen(clusters, old(streams), was, old(heard), before, heard);
      ok := true;
    }

    method SharedPages(head: nat, net: Network, meanwhile: nat -> seq<Meanwhile>, clusters: set<Address>) returns (ok: bool)
      requires Valid() && Fits(head) && MayHappen(world, batch, discoveryChunk, meanwhile) && lastIndexed <= head
      requires Unlisted(clusters) && Deaf(clusters, lastIndexed)
      modifies `known, `projected, `awaited, `history, `resume, `lastIndexed, `streams, `nextSession, `heard
      ensures Valid() && Unlisted(clusters) && Deaf(clusters, lastIndexed)
      ensures old(known) <= known && Grew(old(streams), streams)
      ensures SameReads(clusters, old(resume), resume) && SameHeard(clusters, old(streams), old(heard), heard)
      ensures old(lastIndexed) <= lastIndexed <= head
      ensures ok ==> head < ScanStart(lastIndexed, world.floor) || clusters == {}
      ensures AllUp(net) ==> ok
    {
      GrewNot(streams);
      var from := ScanStart(lastIndexed, world.floor);
      while clusters != {} && from <= head
        invariant Valid() && old(lastIndexed) <= lastIndexed <= head && from == ScanStart(lastIndexed, world.floor)
        invariant Unlisted(clusters) && Deaf(clusters, lastIndexed)
        invariant old(known) <= known && Grew(old(streams), streams)
        invariant SameReads(clusters, old(resume), resume) && SameHeard(clusters, old(streams), old(heard), heard)
        decreases head + 1 - from
      {
        var to := Min(from + AtLeast(batch, 1) - 1, head);
        ghost var was, before := streams, heard;
        ok := PageMeanwhile(from, to, net, meanwhile(from), clusters);
        GrewThen(old(streams), was, streams);
        HeardThen(clusters, old(streams), was, old(heard), before, heard);
        if !ok { return; }
        from := to + 1;
      }
      ghost var was, before := streams, heard;
      Interlude(meanwhile(from), clusters);
      GrewThen(old(streams), was, streams);
      HeardThen(clusters, old(streams), was, old(heard), before, heard);
      ok := true;
    }

    // -------------------------------------------------------------- boot

    ghost predicate Booting(through: nat)
      reads this
    {
      && Valid() && lastIndexed == 0 && streams == map[] && ReadThrough(resume, known, through) && Prompt()
      && projected == known && awaited == map[]
    }

    /** Boot makes a cluster known as soon as it is discovered; its logs are read afterwards. */
    method BootAdd(d: Deployment, net: Network) returns (ok: bool)
      requires Booting(0) && history == []
      modifies `known, `projected, `resume
      ensures Booting(0) && old(known) <= known && (ok ==> d.cluster in known)
      ensures AllUp(net) ==> ok
    {
      if !net(Metadata(d.cluster)) { return false; }
      BootStart(world.chain, history, d.cluster);
      var _ := RecordDiscovered(d.cluster);
      resume := resume[d.cluster := Resume(0, 0, 0)];
      ok := true;
    }

    method BootPageOfDeployments(from: nat, to: nat, net: Network) returns (ok: bool)
      requires Booting(0) && history == [] && Discovered(world.deployments, known, from - 1)
      modifies `known, `projected, `resume
      ensures Booting(0) && (ok ==> Discovered(world.deployments, known, to))
      ensures AllUp(net) ==> ok
    {
      if !net(DeploymentPage(from)) { return false; }
      var found := FoundIn(world.deployments, from, to);
      var i := 0;
      while i < |found|
        invariant i <= |found| && Booting(0) && old(known) <= known
        invariant AllKnown(found, i, known)
      {
        var done := BootAdd(found[i], net);
        if !done { return false; }
        i := i + 1;
      }
      PageDiscovered(world.deployments, known, from, to);
      ok := true;
    }

    method BootDiscover(head: nat, net: Network) returns (ok: bool)
      requires Booting(0) && history == [] && Fits(head)
      modifies `known, `projected, `resume, `lastFactory
      ensures Booting(0) && (ok ==> lastFactory == head)
      ensures AllUp(net) ==> ok
      ensures !ok ==> lastFactory == old(lastFactory)
    {
      var ranges := ScanRanges(world.floor, head, discoveryChunk);
      var i := 0;
      ghost var next := world.floor;
      while i < |ranges|
        invariant i <= |ranges| && Booting(0) && lastFactory == old(lastFactory)
        invariant next == if i == 0 then world.floor else ranges[i - 1].1 + 1
        invariant Discovered(world.deployments, known, next - 1)
      {
        ok := BootPageOfDeployments(ranges[i].0, ranges[i].1, net);
        if !ok { return; }
        next := ranges[i].1 + 1;
        i := i + 1;
      }
      lastFactory := head;
      ok := true;
    }

    method BootIngest(from: nat, to: nat)
      requires projected == known && 0 < from
      modifies `history
      ensures history == old(history) + Select(world.chain, Clusters(known), from - 1, to)
    {
      ProjectedShare(world.chain, known, projected, from - 1, to);
      assert known * projected == known;
      IngestForCache(Poll(known, from, to));
    }

    method BootReadPage(from: nat, to: nat, ghost through: nat)
      requires Booting(through) && 0 < from && through <= from - 1 <= to
      requires from - 1 == through || (through == 0 && from == ScanStart(0, world.floor))
      modifies `history, `resume
      ensures Booting(to)
    {
      ghost var before := history;
      BootIngest(from, to);
      AllThroughSettled(world.chain, known, Resume(to, 0, 0), 0);
      BootPageAll(world.chain, before, history, known, resume, through, world.floor, from, to);
      SnapshotOnly(world.chain, before, history, known, known, from - 1, to);
      resume := AllThrough(known, Resume(to, 0, 0));
    }

    method BootRead(head: nat, net: Network) returns (ok: bool)
      requires Booting(0) && Fits(head)
      modifies `history, `resume, `lastIndexed
      ensures Valid() && Prompt() && streams == map[] && lastIndexed == if ok then head else 0
      ensures AllUp(net) ==> ok
    {
      ghost var through: nat := 0;
      if known != {} {
        var start := ScanStart(lastIndexed, world.floor);
        var ranges := ScanRanges(start, head, batch);
        var i := 0;
        while i < |ranges|
          invariant i <= |ranges| && Booting(through)
          invariant through == if i == 0 then 0 else ranges[i - 1].1
        {
          if !net(LogPage(ranges[i].0)) { return false; }
          BootReadPage(ranges[i].0, ranges[i].1, through);
          through := ranges[i].1;
          i := i + 1;
        }
      }
      BootFinish(head, through);
      ok := true;
    }

    /** The watermark moves to the head only after the whole scan. */
    method BootFinish(head: nat, ghost through: nat)
      requires Booting(through) && head < U64_MAX
      requires through == head || (through == 0 && head < ScanStart(0, world.floor)) || known == {}
      modifies `resume, `lastIndexed
      ensures Valid() && Prompt() && lastIndexed == head
    {
      BootEndAll(world.chain, history, known, resume, through, world.floor, head);
      AllThroughSettled(world.chain, known, Resume(head, head, head), head);
      resume := AllThrough(known, Resume(head, head, head));
      lastIndexed := head;
    }

    /** Boot catch-up. Whatever read fails, the loops may start from the state it leaves. */
    method BootCatchup(head: nat, net: Network) returns (ok: bool)
      requires Valid() && AtBoot() && Fits(head)
      modifies this
      ensures Valid() && Prompt() && streams == map[] && lastIndexed == if ok then head else 0
      ensures ok ==> Discovered(world.deployments, known, head)
      ensures AllUp(net) ==> ok
    {
      if !net(Head) { return false; }
      ok := BootDiscover(head, net);
      if ok { ok := BootRead(head, net); }
    }

    // -------------------------------------------------------------- the whole service

    /**
     * A new subscription to a known cluster; its replayed prefix comes from the chain and ends at the watermark it had
     * sampled, which may have moved on before it was registered.
     */
    method Attach(cluster: Address, member: MemberId, checkpoints: bool, sampled: nat) returns (session: nat)
      requires Valid() && cluster in known && sampled <= lastIndexed
      modifies `streams, `nextSession, `heard
      ensures Valid() && session !in old(streams) && streams.Keys == old(streams.Keys) + {session}
      ensures streams[session] == Stream(Subscription(cluster, member, checkpoints, sampled), [], true)
      ensures heard == old(heard)[session := lastIndexed]
      ensures forall s | s in old(streams) :: streams[s] == old(streams[s])
    {
      session := nextSession;
      var st := Stream(Subscription(cluster, member, checkpoints, sampled), [], true);
      SilentDelivered(world.chain, st, lastIndexed);
      streams := streams[session := st];
      heard := heard[session := lastIndexed];
      nextSession := nextSession + 1;
    }

    /**
     * Among the logs of its cluster that are not messages to someone else, a session that keeps up has been sent exactly
     * those above the block it is heard from; no session has been sent anything else.
     */
    lemma SentIff(s: nat, l: Log)
      requires Valid() && s in streams
      ensures s in keepsUp && l in world.chain && streams[s].sub.attachedAt < l.block <= lastIndexed
              && l.cluster == streams[s].sub.cluster && (l.kind.MessageSent? ==> l.kind.recipient == streams[s].sub.member) ==>
                (Pushed(l) in streams[s].delivered <==> heard[s] < l.block)
      ensures Pushed(l) in streams[s].delivered ==>
                && l in world.chain && heard[s] < l.block <= lastIndexed
                && l.cluster == streams[s].sub.cluster && (l.kind.MessageSent? ==> l.kind.recipient == streams[s].sub.member)
    {
      assert OnTrack(world.chain, streams[s], heard[s], known, lastIndexed);
      LiveDeliveryIsExact(world.chain, Hearing(streams[s], heard[s]), lastIndexed, l);
    }

    /**
     * It misses nothing since it attached if and only if no log of its cluster, other than messages to someone else, lies
     * after the watermark it had sampled and at or below the one when it was registered, or when the tick that did not
     * list its cluster ended.
     */
    lemma NothingMissedIff(s: nat)
      requires Valid() && s in streams && s in keepsUp
      ensures SentAll(world.chain, streams[s], streams[s].sub.attachedAt, lastIndexed) <==>
              NothingFor(world.chain, streams[s].sub, streams[s].sub.attachedAt, heard[s])
    {
      var sub := streams[s].sub;
      assert OnTrack(world.chain, streams[s], heard[s], known, lastIndexed);
      forall l { SentIff(s, l); }
    }

    /**
     * Whatever ticks ran or failed, in whatever order, and whatever admissions are half way: every log of a known cluster
     * up to the watermark is ingested exactly when none lies after the head its backfill was read through and at or below
     * the watermark from which pages were read for it.
     */
    lemma CompleteIff(c: Address)
      requires Valid() && c in known
      ensures HasAll(world.chain, history, c, lastIndexed) <==> Gapless(world.chain, c, resume[c])
    {
      BackedIsCompleteIff(world.chain, history, c, resume[c], lastIndexed);
    }

    /** Completeness: if no pass was overtaken, every log of a known cluster up to the watermark is ingested. */
    lemma UpToDate(l: Log)
      requires Valid() && Prompt() && l in world.chain && l.cluster in known && l.block <= lastIndexed
      ensures l in history
    {
      BackedHolds(world.chain, history, l.cluster, resume[l.cluster], lastIndexed, l);
    }
  }

  /**
   * A discovery pass samples its head, the watcher passes that head, and the pass admits its cluster through it. The
   * cluster is known, and its logs in between are missing, also after any later ticks of either loop.
   */
  method WatcherOvertakesDiscovery(rt: Runtime, d: Deployment, sampled: nat, head: nat, later: nat, net: Network)
    requires rt.Valid() && AllUp(net) && rt.Fits(head) && rt.Fits(sampled) && rt.Fits(later)
    requires d in rt.world.deployments && d.cluster !in rt.known && d.block <= sampled
    requires rt.lastIndexed <= sampled < head <= later
    modifies rt
    ensures rt.Valid() && d.cluster in rt.known && rt.lastIndexed == later
    ensures forall l | l in rt.world.chain && l.cluster == d.cluster && l.block <= later :: l in rt.history <==> !(sampled < l.block <= head)
  {
    var watched := rt.WatchTick(head, net);
    var admitted := rt.Hydrate(d, sampled, net);
    var again := rt.WatchTick(later, net);
    var repeated := rt.DiscoveryTick(later, net);
    forall l | l in rt.world.chain && l.cluster == d.cluster && l.block <= later
      ensures l in rt.history <==> !(sampled < l.block <= head) {
      BackedHolds(rt.world.chain, rt.history, d.cluster, rt.resume[d.cluster], rt.lastIndexed, l);
    }
  }

  /** A cluster deployed in block 2, with one log in block 5 that concerns every member. */
  lemma SampleWorld() returns (world: World, deployed: Deployment, log: Log)
    ensures world.chain == [log] && world.deployments == [deployed] && log.cluster == deployed.cluster
    ensures deployed.block == 2 && log.block == 5 && log.kind.CskCommitmentSet?
  {
    log, deployed := Log(1, 5, 0, CskCommitmentSet(7)), Deployment(1, 2, 0);
    assert NoneBefore([log], 1, 2);
    world := Chain([log], [deployed], 1);
  }

  /** Such a loss does happen: the log comes between the sampled head and the watermark. */
  method LostLog(world: World, deployed: Deployment, lost: Log) returns (rt: Runtime)
    requires world.chain == [lost] && world.deployments == [deployed] && lost.cluster == deployed.cluster
    requires deployed.block == 2 && lost.block == 5
    ensures rt.Valid() && lost in rt.world.chain && lost.cluster in rt.known && lost.block <= rt.lastIndexed && lost !in rt.history
  {
    rt := new Runtime(world, 10, 10, {});
    var net: Network := (read: Read) => true;
    WatcherOvertakesDiscovery(rt, deployed, 2, 6, 6, net);
    assert lost in rt.world.chain;
  }

  /**
   * A tick during an admission: the cluster is listed by the watcher and the read model, and its backfill is handed over
   * only after the tick's pages, which come first in the history.
   */
  method PageDuringAdmission(rt: Runtime, d: Deployment, sampled: nat, head: nat, net: Network)
    requires rt.Valid() && AllUp(net) && rt.Fits(head)
    requires d in rt.world.deployments && d.cluster !in rt.known && d.block <= sampled && rt.lastIndexed < head
    modifies rt
    ensures rt.Valid() && d.cluster in rt.known && rt.lastIndexed == head
    ensures Filter(rt.history, Only(d.cluster))
         == Select(rt.world.chain, Only(d.cluster), old(rt.lastIndexed), head) + Select(rt.world.chain, Only(d.cluster), 0, sampled)
  {
    ghost var last := rt.lastIndexed;
    rt.StartAdmission(d.cluster, sampled);
    var watched := rt.WatchTick(head, net);
    assert rt.resume[d.cluster] == Pending(last);
    rt.EndAdmission(d.cluster);
  }

  /** A session that has sampled the watermark before a tick and is registered after it is not sent the tick's logs. */
  method LateSubscription(rt: Runtime, cluster: Address, member: MemberId, head: nat, net: Network) returns (s: nat)
    requires rt.Valid() && AllUp(net) && rt.Fits(head) && cluster in rt.known && rt.lastIndexed < head
    modifies rt
    ensures rt.Valid() && s in rt.streams && rt.streams[s].live && rt.lastIndexed == head
    ensures rt.streams[s].sub == Subscription(cluster, member, true, old(rt.lastIndexed))
    ensures forall l :: Pushed(l) !in rt.streams[s].delivered
  {
    var sampled := rt.lastIndexed;
    var watched := rt.WatchTick(head, net);
    s := rt.Attach(cluster, member, true, sampled);
  }

  /** Such a log is missed: the session subscribes before block 5 and is registered after it. */
  method MissedDelivery(world: World, deployed: Deployment, missed: Log) returns (rt: Runtime, s: nat)
    requires world.chain == [missed] && world.deployments == [deployed] && missed.cluster == deployed.cluster
    requires deployed.block == 2 && missed.block == 5 && missed.kind.CskCommitmentSet?
    ensures rt.Valid() && s in rt.streams && rt.streams[s].live && Pushed(missed) !in rt.streams[s].delivered
    ensures missed in rt.world.chain && missed.cluster == rt.streams[s].sub.cluster
    ensures rt.streams[s].sub.attachedAt < missed.block <= rt.lastIndexed
  {
    rt := new Runtime(world, 10, 10, {});
    var net: Network := (read: Read) => true;
    var booted := rt.BootCatchup(3, net);
    assert deployed in rt.world.deployments;
    s := LateSubscription(rt, deployed.cluster, 0, 6, net);
    assert missed in rt.world.chain;
  }

  predicate Rising(heads: seq<nat>) {
    forall i, j | 0 <= i < j < |heads| :: heads[i] <= heads[j]
  }

  ghost predicate Undisturbed(rt: Runtime)
    reads rt
  {
    rt.Prompt() && Attentive(rt.streams, rt.heard)
  }

  /** A watcher tick. */
  method Watch(rt: Runtime, head: nat, net: Network, undisturbed: bool, meanwhile: nat -> seq<Meanwhile>)
    requires rt.Valid() && rt.Fits(head) && MayHappen(rt.world, rt.batch, rt.discoveryChunk, meanwhile)
    requires rt.lastIndexed <= head && (undisturbed ==> Undisturbed(rt))
    modifies rt
    ensures rt.Valid() && rt.lastIndexed <= head && (undisturbed ==> Undisturbed(rt))
  {
    if undisturbed {
      ghost var was, before, last := rt.streams, rt.heard, rt.lastIndexed;
      var watched := rt.WatchTick(head, net);
      StillAttentive(rt.world.chain, rt.known, was, rt.streams, before, rt.heard, last);
    } else {
      var watched := rt.SharedWatchTick(head, net, meanwhile);
    }
  }

  /** A subscription; unless undisturbed, steps of admissions and subscriptions that had sampled the watermark before. */
  method Join(rt: Runtime, undisturbed: bool, meanwhile: nat -> seq<Meanwhile>)
    requires rt.Valid() && MayHappen(rt.world, rt.batch, rt.discoveryChunk, meanwhile) && (undisturbed ==> Undisturbed(rt))
    modifies rt
    ensures rt.Valid() && rt.lastIndexed == old(rt.lastIndexed) && (undisturbed ==> Undisturbed(rt))
  {
    if undisturbed {
      if rt.known == {} { return; }
      var cluster :| cluster in rt.known;
      var member: MemberId :| true;
      var checkpoints: bool :| true;
      var session := rt.Attach(cluster, member, checkpoints, rt.lastIndexed);
    } else {
      AllListed(rt.world.chain, rt.streams, rt.heard, rt.known, rt.lastIndexed, rt.lastIndexed);
      assert rt.Unlisted(rt.known);
      rt.Interlude(meanwhile(0), rt.known);
    }
  }

  /**
   * Boot once, then any interleaving of ticks and subscriptions, each chain head no lower than the last. Unless passes run
   * undisturbed, a discovery pass and a subscription may have sampled their head and watermark at any earlier moment, and
   * admissions and subscriptions may fall into a watcher tick.
   */
  method Serve(world: World, batch: nat, discoveryChunk: nat, heads: seq<nat>, nets: nat -> Network, keepsUp: set<nat>,
               undisturbed: bool, meanwhile: nat -> nat -> seq<Meanwhile>) returns (rt: Runtime)
    requires Rising(heads)
    requires forall h | h in heads :: FitsIn(h, batch, discoveryChunk)
    requires forall i: nat :: MayHappen(world, batch, discoveryChunk, meanwhile(i))
    ensures rt.Valid() && fresh(rt) && (undisturbed ==> Undisturbed(rt))
  {
    rt := new Runtime(world, batch, discoveryChunk, keepsUp);
    if heads == [] { return; }
    assert heads[0] in heads && rt.Fits(heads[0]);
    var booted := rt.BootCatchup(heads[0], nets(0));
    var i := 1;
    while i < |heads|
      invariant 1 <= i <= |heads| && rt.Valid() && fresh(rt) && rt.lastIndexed <= heads[i - 1]
      invariant rt.world == world && rt.batch == batch && rt.discoveryChunk == discoveryChunk
      invariant undisturbed ==> Undisturbed(rt)
    {
      assert heads[i] in heads && rt.Fits(heads[i]) && MayHappen(world, batch, discoveryChunk, meanwhile(i));
      if * {
        Watch(rt, heads[i], nets(i), undisturbed, meanwhile(i));
      } else if * {
        var j :| 0 <= j <= i && (undisturbed ==> j == i);
        assert heads[j] in heads && rt.Fits(heads[j]);
        var discovered := rt.DiscoveryTick(heads[j], nets(i));
      } else {
        Join(rt, undisturbed, meanwhile(i));
      }
      i := i + 1;
    }
  }

  /**
   * End to end: in any state the service can reach, once the watermark has caught up with the first read of a cluster
   * that misses nothing, what is served for it is what reading its logs up to the watermark exactly once would serve.
   */
  lemma CaughtUpClusterIsServedExactly(rt: Runtime, d: Deployment)
    requires rt.Valid() && d.cluster in rt.known && rt.resume[d.cluster].Resume? && rt.resume[d.cluster].through <= rt.lastIndexed
    requires Gapless(rt.world.chain, d.cluster, rt.resume[d.cluster])
    requires NoneBetween(rt.world.chain, d.cluster, rt.resume[d.cluster].from, rt.resume[d.cluster].placed)
    requires ReadModel.LastKeysLand(Select(rt.world.chain, Only(d.cluster), 0, rt.resume[d.cluster].through))
    ensures ReadModel.Served(ReadModel.Project(ReadModel.NewCluster(d), Filter(rt.history, Only(d.cluster))))
         == ReadModel.Served(ReadModel.Project(ReadModel.NewCluster(d), Select(rt.world.chain, Only(d.cluster), 0, rt.lastIndexed)))
  {
    ReadModel.ServedAsIfReadOnce(rt.world.chain, rt.history, d, rt.resume[d.cluster], rt.lastIndexed);
  }
}
