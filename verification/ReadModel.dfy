/** The projection of cluster logs into the state the indexer serves, and what replaying logs does to it. */
module ReadModel {
  import opened Options
  import opened Sorting
  import opened IndexerChain
  import opened IndexerIngest

  /** An entry under its position in the chain, the order of every list kept here. */
  datatype Keyed<T> = Keyed(block: nat, index: nat, item: T)

  function Position<T>(k: Keyed<T>): Key {
    (k.block, k.index)
  }

  /** In the order of the chain. */
  ghost predicate Chronological<T>(s: seq<Keyed<T>>) {
    forall i, j | 0 <= i < j < |s| :: s[i].block < s[j].block || (s[i].block == s[j].block && s[i].index <= s[j].index)
  }

  lemma InChainOrder<T>(s: seq<Keyed<T>>)
    requires Sorted(s, Position)
    ensures Chronological(s)
  {
  }

  datatype Info = Info(id: MemberId, contract: Address, attestor: nat, xKey: nat, wgKey: nat, registeredAt: nat)

  datatype Event = Deployed(cluster: Address) | Happened(kind: EventKind)

  datatype Cluster = Cluster(
    deployment: Deployment,
    csk: Option<nat>,
    scannedTo: nat,
    members: seq<Keyed<Info>>,
    events: seq<Keyed<Event>>)

  function NewCluster(d: Deployment): Cluster {
    Cluster(d, None, if d.block == 0 then 0 else d.block - 1, [], [Keyed(d.block, d.index, Deployed(d.cluster))])
  }

  /** Position of the first member with this id, or the number of members. */
  function FindMember(ms: seq<Keyed<Info>>, id: MemberId): (n: nat)
    ensures n <= |ms| && (n < |ms| ==> ms[n].item.id == id) && forall i | 0 <= i < n :: ms[i].item.id != id
  {
    if ms == [] then 0
    else
      var n := FindMember(ms[..|ms| - 1], id);
      if n < |ms| - 1 || ms[|ms| - 1].item.id == id then n else |ms|
  }

  function Registered(l: Log): Keyed<Info>
    requires l.kind.MemberRegistered?
  {
    var k := l.kind;
    Keyed(l.block, l.index, Info(k.member, k.contract, k.attestor, k.xKey, k.wgKey, k.registeredAt))
  }

  function Rekeyed(m: Keyed<Info>, wgKey: nat): Keyed<Info> {
    Keyed(m.block, m.index, m.item.(wgKey := wgKey))
  }

  function MembersAfter(ms: seq<Keyed<Info>>, l: Log): seq<Keyed<Info>> {
    match l.kind
    case MemberRegistered(id, _, _, _, _, _) =>
      if FindMember(ms, id) < |ms| then ms else StableSort(ms + [Registered(l)], Position)
    case WgKeyPublished(id, key) =>
      var n := FindMember(ms, id);
      if n < |ms| then ms[n := Rekeyed(ms[n], key)] else ms
    case _ => ms
  }

  function Ingested(c: Cluster, l: Log): Cluster {
    Cluster(
      c.deployment,
      if l.kind.CskCommitmentSet? then Some(l.kind.commitment) else c.csk,
      if c.scannedTo < l.block then l.block else c.scannedTo,
      MembersAfter(c.members, l),
      StableSort(c.events + [Keyed(l.block, l.index, Happened(l.kind))], Position))
  }

  function Project(c: Cluster, logs: seq<Log>): Cluster {
    if logs == [] then c else Ingested(Project(c, logs[..|logs| - 1]), logs[|logs| - 1])
  }

  lemma {:induction false} ProjectConcat(c: Cluster, x: seq<Log>, y: seq<Log>)
    ensures Project(c, x + y) == Project(Project(c, x), y)
  {
    if y == [] {
      assert x + y == x;
    } else {
      ProjectConcat(c, x, y[..|y| - 1]);
      assert (x + y)[..|x + y| - 1] == x + y[..|y| - 1];
    }
  }

  // ---------------------------------------------------------------- the served state

  /** What a snapshot is computed from; the first member is the originator. */
  datatype View = View(deployment: Deployment, csk: Option<nat>, scannedTo: nat, members: seq<Keyed<Info>>)

  function Served(c: Cluster): View {
    View(c.deployment, c.csk, c.scannedTo, c.members)
  }

  lemma {:induction false} ServedDependsOnServed(a: Cluster, b: Cluster, logs: seq<Log>)
    requires Served(a) == Served(b)
    ensures Served(Project(a, logs)) == Served(Project(b, logs))
  {
    if logs != [] { ServedDependsOnServed(a, b, logs[..|logs| - 1]); }
  }

  // ---------------------------------------------------------------- what a log prefix settles

  predicate Publishes(l: Log, id: MemberId) {
    l.kind.WgKeyPublished? && l.kind.member == id
  }

  predicate Registers(l: Log, id: MemberId) {
    l.kind.MemberRegistered? && l.kind.member == id
  }

  /** The key of a member after these logs, if it was d before and the member was known throughout. */
  function LatestKey(logs: seq<Log>, id: MemberId, d: nat): nat {
    if logs == [] then d
    else if Publishes(logs[|logs| - 1], id) then logs[|logs| - 1].kind.wgKey
    else LatestKey(logs[..|logs| - 1], id, d)
  }

  function LatestCsk(logs: seq<Log>, d: Option<nat>): Option<nat> {
    if logs == [] then d
    else if logs[|logs| - 1].kind.CskCommitmentSet? then Some(logs[|logs| - 1].kind.commitment)
    else LatestCsk(logs[..|logs| - 1], d)
  }

  /** A value that the whole log leaves alone is left alone by every suffix of it. */
  lemma {:induction false} SuffixKeepsKey(logs: seq<Log>, i: nat, id: MemberId, d: nat)
    requires i <= |logs| && LatestKey(logs, id, d) == d
    ensures LatestKey(logs[i..], id, d) == d
  {
    if i < |logs| {
      var front := logs[..|logs| - 1];
      assert logs[i..][..|logs| - i - 1] == front[i..];
      if !Publishes(logs[|logs| - 1], id) { SuffixKeepsKey(front, i, id, d); }
    }
  }

  lemma {:induction false} SuffixKeepsCsk(logs: seq<Log>, i: nat, d: Option<nat>)
    requires i <= |logs| && LatestCsk(logs, d) == d
    ensures LatestCsk(logs[i..], d) == d
  {
    if i < |logs| {
      var front := logs[..|logs| - 1];
      assert logs[i..][..|logs| - i - 1] == front[i..];
      if !logs[|logs| - 1].kind.CskCommitmentSet? { SuffixKeepsCsk(front, i, d); }
    }
  }

  predicate Distinct(ms: seq<Keyed<Info>>) {
    forall i, j | 0 <= i < j < |ms| :: ms[i].item.id != ms[j].item.id
  }

  predicate Has(ms: seq<Keyed<Info>>, id: MemberId) {
    FindMember(ms, id) < |ms|
  }

  predicate AllRegistered(ms: seq<Keyed<Info>>, logs: seq<Log>) {
    forall l | l in logs && l.kind.MemberRegistered? :: Has(ms, l.kind.member)
  }

  /** Every member shows the last key published for it in these logs, if any was. */
  predicate KeysCurrent(ms: seq<Keyed<Info>>, logs: seq<Log>) {
    forall m | m in ms :: LatestKey(logs, m.item.id, m.item.wgKey) == m.item.wgKey
  }

  predicate Scanned(scannedTo: nat, logs: seq<Log>) {
    forall l | l in logs :: l.block <= scannedTo
  }

  /** The replay of these logs finds everything in place. */
  predicate Settled(c: Cluster, logs: seq<Log>) {
    && Distinct(c.members)
    && AllRegistered(c.members, logs)
    && LatestCsk(logs, c.csk) == c.csk
    && Scanned(c.scannedTo, logs)
  }

  /** During a replay the members are the same, each with the key the replayed part gave it last. */
  predicate Rewritten(before: seq<Keyed<Info>>, after: seq<Keyed<Info>>, logs: seq<Log>) {
    |after| == |before| && forall i | 0 <= i < |before| :: after[i] == Rekeyed(before[i], LatestKey(logs, before[i].item.id, before[i].item.wgKey))
  }

  lemma FoundIffPresent(ms: seq<Keyed<Info>>, id: MemberId)
    ensures Has(ms, id) <==> exists i :: 0 <= i < |ms| && ms[i].item.id == id
  {
    var n := FindMember(ms, id);
    if n < |ms| { assert ms[n].item.id == id; }
  }

  lemma {:induction false} SameIdsFound(a: seq<Keyed<Info>>, b: seq<Keyed<Info>>, id: MemberId)
    requires |a| == |b| && forall i | 0 <= i < |a| :: a[i].item.id == b[i].item.id
    ensures FindMember(a, id) == FindMember(b, id)
  {
    if a != [] { SameIdsFound(a[..|a| - 1], b[..|b| - 1], id); }
  }

  lemma LatestKeyStep(logs: seq<Log>, l: Log, id: MemberId, d: nat)
    ensures LatestKey(logs + [l], id, d) == if Publishes(l, id) then l.kind.wgKey else LatestKey(logs, id, d)
  {
    assert (logs + [l])[..|logs|] == logs;
  }

  lemma RewrittenStep(before: seq<Keyed<Info>>, after: seq<Keyed<Info>>, logs: seq<Log>, l: Log)
    requires Distinct(before) && Rewritten(before, after, logs)
    requires l.kind.MemberRegistered? ==> Has(before, l.kind.member)
    ensures Rewritten(before, MembersAfter(after, l), logs + [l])
  {
    if l.kind.MemberRegistered? { SameIdsFound(before, after, l.kind.member); }
    forall i | 0 <= i < |before| ensures MembersAfter(after, l)[i] ==
      Rekeyed(before[i], LatestKey(logs + [l], before[i].item.id, before[i].item.wgKey)) {
      LatestKeyStep(logs, l, before[i].item.id, before[i].item.wgKey);
      if Publishes(l, before[i].item.id) {
        SameIdsFound(before, after, l.kind.member);
        FoundIffPresent(before, l.kind.member);
      }
    }
  }

  /** What a replay of already registered members' logs does: the keys, the commitment, and nothing else served. */
  lemma {:induction false} ReplayRewrites(c: Cluster, logs: seq<Log>)
    requires Distinct(c.members) && AllRegistered(c.members, logs) && Scanned(c.scannedTo, logs)
    ensures var r := Project(c, logs);
            && Rewritten(c.members, r.members, logs)
            && r.csk == LatestCsk(logs, c.csk) && r.scannedTo == c.scannedTo && r.deployment == c.deployment
  {
    if logs != [] {
      var front, l := logs[..|logs| - 1], logs[|logs| - 1];
      assert logs == front + [l];
      ReplayRewrites(c, front);
      assert l in logs;
      RewrittenStep(c.members, Project(c, front).members, front, l);
    }
  }

  // ---------------------------------------------------------------- a projection settles its own logs

  lemma PushedMembers(ms: seq<Keyed<Info>>, x: Keyed<Info>, m: Keyed<Info>)
    requires Sorted(ms, Position)
    ensures m in StableSort(ms + [x], Position) <==> m in ms || m == x
  {
    StableSortSorts(ms + [x], Position);
    InMultiset(StableSort(ms + [x], Position), m);
    InMultiset(ms + [x], m);
  }

  lemma {:induction false} InsertDistinct(ms: seq<Keyed<Info>>, x: Keyed<Info>)
    requires Distinct(ms) && forall m | m in ms :: m.item.id != x.item.id
    ensures Distinct(InsertLate(ms, x, Position))
  {
    if ms != [] && !AtMost(Position(ms[|ms| - 1]), Position(x)) {
      var front, l := ms[..|ms| - 1], ms[|ms| - 1];
      InsertDistinct(front, x);
      var r := InsertLate(front, x, Position);
      forall i | 0 <= i < |r| ensures r[i].item.id != l.item.id {
        InsertMembers(front, x, Position);
        InMultiset(r, r[i]);
        if r[i] != x {
          InMultiset(front, r[i]);
          var j :| 0 <= j < |front| && front[j] == r[i];
          assert ms[j].item.id != ms[|ms| - 1].item.id;
        }
      }
    }
  }

  lemma HasMember(ms: seq<Keyed<Info>>, m: Keyed<Info>)
    requires m in ms
    ensures Has(ms, m.item.id)
  {
    FoundIffPresent(ms, m.item.id);
  }

  lemma MembersGrow(ms: seq<Keyed<Info>>, l: Log, id: MemberId)
    requires Sorted(ms, Position)
    ensures Has(MembersAfter(ms, l), id) <==> Has(ms, id) || Registers(l, id)
  {
    var after := MembersAfter(ms, l);
    FoundIffPresent(ms, id);
    FoundIffPresent(after, id);
    match l.kind
    case MemberRegistered(x, _, _, _, _, _) =>
      if !Has(ms, x) {
        var joined := Registered(l);
        if i :| 0 <= i < |ms| && ms[i].item.id == id { PushedMembers(ms, joined, ms[i]); HasMember(after, ms[i]); }
        if i :| 0 <= i < |after| && after[i].item.id == id {
          PushedMembers(ms, joined, after[i]);
          if after[i] in ms { HasMember(ms, after[i]); }
        }
        if x == id { PushedMembers(ms, joined, joined); HasMember(after, joined); }
      }
    case WgKeyPublished(x, key) =>
      assert |after| == |ms| && forall i | 0 <= i < |ms| :: after[i].item.id == ms[i].item.id;
      SameIdsFound(ms, after, id);
    case _ =>
  }

  lemma MembersStayTidy(ms: seq<Keyed<Info>>, l: Log)
    requires Sorted(ms, Position) && Distinct(ms)
    ensures Sorted(MembersAfter(ms, l), Position) && Distinct(MembersAfter(ms, l))
  {
    if l.kind.MemberRegistered? && !Has(ms, l.kind.member) {
      StableSortSorts(ms + [Registered(l)], Position);
      SortPushed(ms, Registered(l), Position);
      forall m | m in ms ensures m.item.id != l.kind.member {
        if m.item.id == l.kind.member { HasMember(ms, m); }
      }
      InsertDistinct(ms, Registered(l));
    }
  }

  lemma {:induction false} ProjectionSettles(d: Deployment, logs: seq<Log>)
    ensures var c := Project(NewCluster(d), logs); Settled(c, logs) && Sorted(c.members, Position)
  {
    if logs != [] {
      var front, l := logs[..|logs| - 1], logs[|logs| - 1];
      assert logs == front + [l];
      ProjectionSettles(d, front);
      var b := Project(NewCluster(d), front);
      MembersStayTidy(b.members, l);
      forall x | x in logs && x.kind.MemberRegistered? ensures Has(MembersAfter(b.members, l), x.kind.member) {
        MembersGrow(b.members, l, x.kind.member);
      }
    }
  }

  // ---------------------------------------------------------------- overlapping replay

  /** Replaying any overlap with what was ingested leaves the served state alone. */
  ghost predicate ReplayHarmless(c: Cluster, logs: seq<Log>) {
    forall i: nat | i <= |logs| :: Served(Project(c, logs[i..])) == Served(c)
  }

  lemma SuffixSettled(c: Cluster, logs: seq<Log>, i: nat)
    requires i <= |logs| && Settled(c, logs)
    ensures Settled(c, logs[i..])
  {
    SuffixKeepsCsk(logs, i, c.csk);
  }

  lemma CurrentKeysStay(ms: seq<Keyed<Info>>, after: seq<Keyed<Info>>, logs: seq<Log>)
    requires Rewritten(ms, after, logs)
    ensures after == ms <==> KeysCurrent(ms, logs)
  {
    if after == ms {
      forall m | m in ms ensures LatestKey(logs, m.item.id, m.item.wgKey) == m.item.wgKey {
        var i :| 0 <= i < |ms| && ms[i] == m;
        assert after[i] == Rekeyed(ms[i], LatestKey(logs, ms[i].item.id, ms[i].item.wgKey));
      }
    }
    if KeysCurrent(ms, logs) {
      forall i | 0 <= i < |ms| ensures after[i] == ms[i] { assert ms[i] in ms; }
    }
  }

  /** Overlaps are harmless exactly when every member shows the last key the log published for it. */
  lemma ReplayHarmlessIff(d: Deployment, logs: seq<Log>)
    ensures var c := Project(NewCluster(d), logs); ReplayHarmless(c, logs) <==> KeysCurrent(c.members, logs)
  {
    var c := Project(NewCluster(d), logs);
    ProjectionSettles(d, logs);
    forall i: nat | i <= |logs|
      ensures Served(Project(c, logs[i..])) == Served(c) <==> KeysCurrent(c.members, logs[i..])
      ensures KeysCurrent(c.members, logs) ==> KeysCurrent(c.members, logs[i..]) {
      SuffixSettled(c, logs, i);
      ReplayRewrites(c, logs[i..]);
      CurrentKeysStay(c.members, Project(c, logs[i..]).members, logs[i..]);
      if KeysCurrent(c.members, logs) {
        forall m | m in c.members ensures LatestKey(logs[i..], m.item.id, m.item.wgKey) == m.item.wgKey {
          SuffixKeepsKey(logs, i, m.item.id, m.item.wgKey);
        }
      }
    }
    assert logs[0..] == logs;
  }

  predicate Announced(logs: seq<Log>, i: nat, id: MemberId)
    requires i <= |logs|
  {
    exists h :: 0 <= h < i && Registers(logs[h], id)
  }

  /** No key of a member is published before the member's first registration. */
  predicate KeysFollowRegistration(logs: seq<Log>) {
    forall i: nat, j: nat | i < j < |logs| && logs[i].kind.WgKeyPublished? && Registers(logs[j], logs[i].kind.member) ::
      Announced(logs, i, logs[i].kind.member)
  }

  lemma FollowsPrefix(logs: seq<Log>, n: nat)
    requires n <= |logs| && KeysFollowRegistration(logs)
    ensures KeysFollowRegistration(logs[..n])
  {
    var p := logs[..n];
    forall i: nat, j: nat | i < j < |p| && p[i].kind.WgKeyPublished? && Registers(p[j], p[i].kind.member)
      ensures Announced(p, i, p[i].kind.member) {
      assert Announced(logs, i, logs[i].kind.member);
      var h :| 0 <= h < i && Registers(logs[h], p[i].kind.member);
      assert Registers(p[h], p[i].kind.member);
    }
  }

  lemma {:induction false} NeverPublished(logs: seq<Log>, id: MemberId, d: nat)
    requires forall l | l in logs :: !Publishes(l, id)
    ensures LatestKey(logs, id, d) == d
  {
    if logs != [] { NeverPublished(logs[..|logs| - 1], id, d); }
  }

  lemma PublishedIsKnown(front: seq<Log>, l: Log, ms: seq<Keyed<Info>>, x: Log)
    requires KeysFollowRegistration(front + [l]) && l.kind.MemberRegistered?
    requires AllRegistered(ms, front) && x in front && Publishes(x, l.kind.member)
    ensures Has(ms, l.kind.member)
  {
    var logs, id := front + [l], l.kind.member;
    var i: nat :| i < |front| && front[i] == x;
    assert logs[i] == x && logs[|front|] == l;
    assert Announced(logs, i, id);
    var h :| 0 <= h < i && Registers(logs[h], id);
    assert logs[h] == front[h] && front[h] in front;
  }

  lemma NewMemberNeverPublished(front: seq<Log>, l: Log, ms: seq<Keyed<Info>>)
    requires KeysFollowRegistration(front + [l]) && l.kind.MemberRegistered?
    requires AllRegistered(ms, front) && !Has(ms, l.kind.member)
    ensures LatestKey(front, l.kind.member, l.kind.wgKey) == l.kind.wgKey
  {
    forall x | x in front ensures !Publishes(x, l.kind.member) {
      if Publishes(x, l.kind.member) { PublishedIsKnown(front, l, ms, x); }
    }
    NeverPublished(front, l.kind.member, l.kind.wgKey);
  }

  /** One more log keeps every shown key current. */
  lemma KeysStayCurrent(ms: seq<Keyed<Info>>, front: seq<Log>, l: Log)
    requires KeysFollowRegistration(front + [l]) && Sorted(ms, Position) && Distinct(ms)
    requires AllRegistered(ms, front) && KeysCurrent(ms, front)
    ensures KeysCurrent(MembersAfter(ms, l), front + [l])
  {
    var after := MembersAfter(ms, l);
    forall m | m in after ensures LatestKey(front + [l], m.item.id, m.item.wgKey) == m.item.wgKey {
      LatestKeyStep(front, l, m.item.id, m.item.wgKey);
      if l.kind.MemberRegistered? && !Has(ms, l.kind.member) {
        PushedMembers(ms, Registered(l), m);
        if m == Registered(l) { NewMemberNeverPublished(front, l, ms); }
      } else if l.kind.WgKeyPublished? && Has(ms, l.kind.member) {
        var i :| 0 <= i < |after| && after[i] == m;
        assert ms[i] in ms;
      } else if l.kind.WgKeyPublished? {
        HasMember(ms, m);
      }
    }
  }

  lemma {:induction false} FollowedKeysAreCurrent(d: Deployment, logs: seq<Log>)
    requires KeysFollowRegistration(logs)
    ensures KeysCurrent(Project(NewCluster(d), logs).members, logs)
  {
    if logs != [] {
      var front, l := logs[..|logs| - 1], logs[|logs| - 1];
      assert logs == front + [l];
      FollowsPrefix(logs, |front|);
      FollowedKeysAreCurrent(d, front);
      ProjectionSettles(d, front);
      KeysStayCurrent(Project(NewCluster(d), front).members, front, l);
    }
  }

  // ---------------------------------------------------------------- the same condition, said of the log

  predicate LastPublication(logs: seq<Log>, j: nat, id: MemberId) {
    j < |logs| && Publishes(logs[j], id) && forall h | j < h < |logs| :: !Publishes(logs[h], id)
  }

  predicate FirstRegistration(logs: seq<Log>, r: nat, id: MemberId) {
    r < |logs| && Registers(logs[r], id) && forall h | 0 <= h < r :: !Registers(logs[h], id)
  }

  /** The last key published for a member comes after its first registration or is the key it registered with. */
  predicate LastKeyLands(logs: seq<Log>, j: nat, r: nat, id: MemberId)
    requires LastPublication(logs, j, id) && FirstRegistration(logs, r, id)
  {
    r < j || logs[j].kind.wgKey == logs[r].kind.wgKey
  }

  ghost predicate LastKeysLand(logs: seq<Log>) {
    forall j: nat, r: nat, id | LastPublication(logs, j, id) && FirstRegistration(logs, r, id) :: LastKeyLands(logs, j, r, id)
  }

  /** The key a member shows after these logs, if it is known. */
  function Shown(logs: seq<Log>, id: MemberId): Option<nat> {
    if logs == [] then None
    else
      var before, l := Shown(logs[..|logs| - 1], id), logs[|logs| - 1];
      if (if before.Some? then Publishes(l, id) else Registers(l, id)) then Some(l.kind.wgKey) else before
  }

  predicate ShowsAll(ms: seq<Keyed<Info>>, logs: seq<Log>) {
    forall m | m in ms :: Shown(logs, m.item.id) == Some(m.item.wgKey)
  }

  lemma ShownStep(logs: seq<Log>, l: Log, id: MemberId)
    ensures Shown(logs + [l], id) ==
      if (if Shown(logs, id).Some? then Publishes(l, id) else Registers(l, id)) then Some(l.kind.wgKey) else Shown(logs, id)
  {
    assert (logs + [l])[..|logs|] == logs;
  }

  lemma ShowsStep(ms: seq<Keyed<Info>>, logs: seq<Log>, l: Log)
    requires Sorted(ms, Position) && Distinct(ms) && ShowsAll(ms, logs)
    requires forall id :: Has(ms, id) <==> Shown(logs, id).Some?
    ensures ShowsAll(MembersAfter(ms, l), logs + [l])
  {
    var after := MembersAfter(ms, l);
    forall m | m in after ensures Shown(logs + [l], m.item.id) == Some(m.item.wgKey) {
      ShownStep(logs, l, m.item.id);
      if l.kind.MemberRegistered? && !Has(ms, l.kind.member) {
        PushedMembers(ms, Registered(l), m);
      } else if l.kind.WgKeyPublished? && Has(ms, l.kind.member) {
        var i :| 0 <= i < |after| && after[i] == m;
        assert ms[i] in ms;
      } else if l.kind.WgKeyPublished? {
        HasMember(ms, m);
      }
    }
  }

  /** The projection shows exactly these keys. */
  lemma {:induction false} ProjectionShows(d: Deployment, logs: seq<Log>)
    ensures var ms := Project(NewCluster(d), logs).members;
            ShowsAll(ms, logs) && forall id :: Has(ms, id) <==> Shown(logs, id).Some?
  {
    if logs != [] {
      var front, l := logs[..|logs| - 1], logs[|logs| - 1];
      assert logs == front + [l];
      ProjectionShows(d, front);
      ProjectionSettles(d, front);
      var ms := Project(NewCluster(d), front).members;
      ShowsStep(ms, front, l);
      forall id ensures Has(MembersAfter(ms, l), id) <==> Shown(logs, id).Some? {
        MembersGrow(ms, l, id);
        ShownStep(front, l, id);
      }
    }
  }

  lemma {:induction false} ShownIffRegistered(logs: seq<Log>, id: MemberId) returns (r: nat)
    ensures if Shown(logs, id).Some? then FirstRegistration(logs, r, id) else forall h | 0 <= h < |logs| :: !Registers(logs[h], id)
  {
    r := 0;
    if logs != [] {
      var n := |logs| - 1;
      r := ShownIffRegistered(logs[..n], id);
      assert forall h | 0 <= h < n :: logs[..n][h] == logs[h];
      if Shown(logs[..n], id).None? { r := n; }
    }
  }

  lemma {:induction false} PublishedLast(logs: seq<Log>, id: MemberId, d: nat) returns (j: nat)
    ensures if LastPublication(logs, j, id) then LatestKey(logs, id, d) == logs[j].kind.wgKey
            else LatestKey(logs, id, d) == d && forall h | 0 <= h < |logs| :: !Publishes(logs[h], id)
  {
    j := 0;
    if logs != [] {
      var n := |logs| - 1;
      assert forall h | 0 <= h < n :: logs[..n][h] == logs[h];
      if Publishes(logs[n], id) {
        j := n;
      } else {
        j := PublishedLast(logs[..n], id, d);
      }
    }
  }

  /** A member shows the last key published after it registered, or the key it registered with. */
  lemma {:induction false} ShownIs(logs: seq<Log>, id: MemberId, r: nat, j: nat)
    requires FirstRegistration(logs, r, id)
    requires LastPublication(logs, j, id) || forall h | 0 <= h < |logs| :: !Publishes(logs[h], id)
    ensures Shown(logs, id) == Some(if LastPublication(logs, j, id) && r < j then logs[j].kind.wgKey else logs[r].kind.wgKey)
  {
    var n := |logs| - 1;
    assert forall h | 0 <= h < n :: logs[..n][h] == logs[h];
    if r == n {
      var first := ShownIffRegistered(logs[..n], id);
    } else if Publishes(logs[n], id) {
      var last := PublishedLast(logs[..n], id, 0);
      ShownIs(logs[..n], id, r, last);
    } else {
      ShownIs(logs[..n], id, r, j);
    }
  }

  lemma LandsIffCurrent(logs: seq<Log>, id: MemberId, r: nat)
    requires FirstRegistration(logs, r, id) && Shown(logs, id).Some?
    ensures LatestKey(logs, id, Shown(logs, id).value) == Shown(logs, id).value <==>
            forall j: nat | LastPublication(logs, j, id) :: LastKeyLands(logs, j, r, id)
  {
    var j := PublishedLast(logs, id, Shown(logs, id).value);
    ShownIs(logs, id, r, j);
    forall k: nat | LastPublication(logs, k, id) ensures k == j {}
  }

  lemma CurrentIffLanded(d: Deployment, logs: seq<Log>)
    ensures KeysCurrent(Project(NewCluster(d), logs).members, logs) <==> LastKeysLand(logs)
  {
    var ms := Project(NewCluster(d), logs).members;
    ProjectionShows(d, logs);
    if KeysCurrent(ms, logs) {
      forall j: nat, r: nat, id | LastPublication(logs, j, id) && FirstRegistration(logs, r, id) ensures LastKeyLands(logs, j, r, id) {
        var first := ShownIffRegistered(logs, id);
        FoundIffPresent(ms, id);
        var i :| 0 <= i < |ms| && ms[i].item.id == id;
        assert ms[i] in ms;
        LandsIffCurrent(logs, id, r);
      }
    }
    if LastKeysLand(logs) {
      forall m | m in ms ensures LatestKey(logs, m.item.id, m.item.wgKey) == m.item.wgKey {
        var r := ShownIffRegistered(logs, m.item.id);
        LandsIffCurrent(logs, m.item.id, r);
      }
    }
  }

  /**
   * Overlaps are harmless exactly when, for every registered member, the last key published for it comes after its first
   * registration or is the key it registered with.
   */
  lemma ReplayHarmlessIffKeysLand(d: Deployment, logs: seq<Log>)
    ensures ReplayHarmless(Project(NewCluster(d), logs), logs) <==> LastKeysLand(logs)
  {
    ReplayHarmlessIff(d, logs);
    CurrentIffLanded(d, logs);
  }

  lemma FollowedKeysLand(d: Deployment, logs: seq<Log>)
    requires KeysFollowRegistration(logs)
    ensures LastKeysLand(logs)
  {
    FollowedKeysAreCurrent(d, logs);
    CurrentIffLanded(d, logs);
  }

  lemma OverlapIsAbsorbed(d: Deployment, head: seq<Log>, i: nat, tail: seq<Log>)
    requires i <= |head| && LastKeysLand(head)
    ensures Served(Project(NewCluster(d), head + (head[i..] + tail))) == Served(Project(NewCluster(d), head + tail))
  {
    var a := Project(NewCluster(d), head);
    ReplayHarmlessIffKeysLand(d, head);
    assert Served(Project(a, head[i..])) == Served(a);
    ServedDependsOnServed(Project(a, head[i..]), a, tail);
    ProjectConcat(NewCluster(d), head, head[i..] + tail);
    ProjectConcat(a, head[i..], tail);
    ProjectConcat(NewCluster(d), head, tail);
  }

  lemma Rejoined<T>(s: seq<T>, p: nat, i: nat)
    requires i <= p <= |s|
    ensures s[..p][i..] + s[p..] == s[i..] && s[..p] + s[p..] == s
  {
  }

  /**
   * Ingesting a prefix and then any suffix that overlaps or adjoins it serves the same members, keys, order, originator,
   * commitment and scanned block as ingesting the whole log once.
   */
  lemma OverlapServesTheSame(d: Deployment, logs: seq<Log>, p: nat, i: nat)
    requires i <= p <= |logs| && LastKeysLand(logs[..p])
    ensures Served(Project(NewCluster(d), logs[..p] + logs[i..])) == Served(Project(NewCluster(d), logs))
  {
    OverlapIsAbsorbed(d, logs[..p], i, logs[p..]);
    Rejoined(logs, p, i);
  }

  lemma ProjectTwo(c: Cluster, x: Log, y: Log)
    ensures Project(c, [x, y]) == Ingested(Ingested(c, x), y)
  {
    assert [x, y][..1] == [x] && [x][..0] == [];
    assert Project(c, [x]) == Ingested(Project(c, []), x);
  }

  lemma EarlyKeyIsLost(early: Log, reg: Log)
    requires reg.kind.MemberRegistered? && Publishes(early, reg.kind.member)
    ensures MembersAfter(MembersAfter([], early), reg) == [Registered(reg)]
  {
    SortPushed([], Registered(reg), Position);
    assert [] + [Registered(reg)] == [Registered(reg)];
  }

  lemma ReplayedKeyStays(early: Log, reg: Log)
    requires reg.kind.MemberRegistered? && Publishes(early, reg.kind.member)
    ensures MembersAfter(MembersAfter([Registered(reg)], early), reg) == [Rekeyed(Registered(reg), early.kind.wgKey)]
  {
    var one := [Registered(reg)];
    assert one[..0] == [] && FindMember(one, reg.kind.member) == 0;
    var rekeyed := [Rekeyed(Registered(reg), early.kind.wgKey)];
    assert one[0 := Rekeyed(one[0], early.kind.wgKey)] == rekeyed;
    assert rekeyed[..0] == [] && FindMember(rekeyed, reg.kind.member) == 0;
  }

  /** A key published before its member registers is lost when the two logs are read once and shown when they are read again. */
  lemma EarlyKeyShowsOnReplay(d: Deployment, early: Log, reg: Log)
    requires reg.kind.MemberRegistered? && Publishes(early, reg.kind.member)
    ensures Project(NewCluster(d), [early, reg]).members == [Registered(reg)]
    ensures Project(NewCluster(d), [early, reg] + [early, reg]).members == [Rekeyed(Registered(reg), early.kind.wgKey)]
  {
    ProjectTwo(NewCluster(d), early, reg);
    EarlyKeyIsLost(early, reg);
    ProjectConcat(NewCluster(d), [early, reg], [early, reg]);
    ProjectTwo(Project(NewCluster(d), [early, reg]), early, reg);
    ReplayedKeyStays(early, reg);
  }

  // ---------------------------------------------------------------- what a served member carries

  /** The member carries the position and fields of its first registration. */
  predicate CarriesFirst(m: Keyed<Info>, logs: seq<Log>, r: nat) {
    && r < |logs| && logs[r].kind.MemberRegistered? && logs[r].kind.member == m.item.id
    && (forall h | 0 <= h < r && logs[h].kind.MemberRegistered? :: logs[h].kind.member != m.item.id)
    && m.block == logs[r].block && m.index == logs[r].index
    && m.item.contract == logs[r].kind.contract && m.item.attestor == logs[r].kind.attestor
    && m.item.xKey == logs[r].kind.xKey && m.item.registeredAt == logs[r].kind.registeredAt
  }

  /** And the last key published after it, or the key it registered with. */
  ghost predicate CarriesKey(m: Keyed<Info>, logs: seq<Log>, r: nat)
    requires r < |logs| && logs[r].kind.MemberRegistered?
  {
    if exists j :: r < j < |logs| && logs[j].kind.WgKeyPublished? && logs[j].kind.member == m.item.id
    then exists j :: r < j < |logs| && logs[j].kind.WgKeyPublished? && logs[j].kind.member == m.item.id && logs[j].kind.wgKey == m.item.wgKey
                     && forall h | j < h < |logs| && logs[h].kind.WgKeyPublished? :: logs[h].kind.member != m.item.id
    else m.item.wgKey == logs[r].kind.wgKey
  }

  lemma CarriedOn(m: Keyed<Info>, rekeyed: Keyed<Info>, front: seq<Log>, l: Log, r: nat)
    requires CarriesFirst(m, front, r) && rekeyed == Rekeyed(m, rekeyed.item.wgKey)
    ensures CarriesFirst(rekeyed, front + [l], r)
  {
  }

  lemma {:induction false} FirstIsCarried(d: Deployment, front: seq<Log>, l: Log)
    requires l.kind.MemberRegistered? && !Has(Project(NewCluster(d), front).members, l.kind.member)
    ensures CarriesFirst(Registered(l), front + [l], |front|)
  {
    ProjectionShows(d, front);
    var none := ShownIffRegistered(front, l.kind.member);
    assert forall h | 0 <= h < |front| :: !Registers(front[h], l.kind.member);
  }

  /** A member after one more log is one from before, with its key or another, or the one that registers. */
  lemma MemberBefore(ms: seq<Keyed<Info>>, l: Log, m: Keyed<Info>) returns (was: Keyed<Info>)
    requires Sorted(ms, Position) && m in MembersAfter(ms, l)
    ensures (was in ms && m == Rekeyed(was, m.item.wgKey)) || (l.kind.MemberRegistered? && !Has(ms, l.kind.member) && m == Registered(l))
  {
    was := m;
    if l.kind.MemberRegistered? && !Has(ms, l.kind.member) {
      PushedMembers(ms, Registered(l), m);
    } else {
      var i :| 0 <= i < |MembersAfter(ms, l)| && MembersAfter(ms, l)[i] == m;
      was := ms[i];
    }
  }

  lemma {:induction false} MemberHasFirst(d: Deployment, logs: seq<Log>, m: Keyed<Info>) returns (r: nat)
    requires m in Project(NewCluster(d), logs).members
    ensures CarriesFirst(m, logs, r)
  {
    var front, l := logs[..|logs| - 1], logs[|logs| - 1];
    assert logs == front + [l];
    ProjectionSettles(d, front);
    var before := MemberBefore(Project(NewCluster(d), front).members, l, m);
    if before in Project(NewCluster(d), front).members && m == Rekeyed(before, m.item.wgKey) {
      r := MemberHasFirst(d, front, before);
      CarriedOn(before, m, front, l, r);
    } else {
      r := |front|;
      FirstIsCarried(d, front, l);
    }
  }

  /** Whatever was ingested: every served member carries its first registration and its last key, and every registered id is served once. */
  lemma MembersCarryTheirLogs(d: Deployment, logs: seq<Log>)
    ensures var ms := Project(NewCluster(d), logs).members;
            && (forall m | m in ms :: exists r: nat :: CarriesFirst(m, logs, r) && CarriesKey(m, logs, r))
            && (forall l | l in logs && l.kind.MemberRegistered? :: exists m | m in ms :: m.item.id == l.kind.member)
            && (forall i, j | 0 <= i < j < |ms| :: ms[i].item.id != ms[j].item.id)
            && Chronological(ms)
  {
    var ms := Project(NewCluster(d), logs).members;
    ProjectionSettles(d, logs);
    ProjectionShows(d, logs);
    forall m | m in ms ensures exists r: nat :: CarriesFirst(m, logs, r) && CarriesKey(m, logs, r) {
      var r := MemberHasFirst(d, logs, m);
      assert FirstRegistration(logs, r, m.item.id);
      var j := PublishedLast(logs, m.item.id, 0);
      ShownIs(logs, m.item.id, r, j);
      KeyCarried(logs, m, r, j);
    }
    forall l | l in logs && l.kind.MemberRegistered? ensures exists m | m in ms :: m.item.id == l.kind.member {
      assert Has(ms, l.kind.member);
      FoundIffPresent(ms, l.kind.member);
      var i :| 0 <= i < |ms| && ms[i].item.id == l.kind.member;
      assert ms[i] in ms;
    }
    InChainOrder(ms);
  }

  lemma KeyCarried(logs: seq<Log>, m: Keyed<Info>, r: nat, j: nat)
    requires CarriesFirst(m, logs, r)
    requires LastPublication(logs, j, m.item.id) || forall h | 0 <= h < |logs| :: !Publishes(logs[h], m.item.id)
    requires m.item.wgKey == if LastPublication(logs, j, m.item.id) && r < j then logs[j].kind.wgKey else logs[r].kind.wgKey
    ensures CarriesKey(m, logs, r)
  {
    if LastPublication(logs, j, m.item.id) && r < j {
      assert Publishes(logs[j], m.item.id);
      forall h | j < h < |logs| && logs[h].kind.WgKeyPublished? ensures logs[h].kind.member != m.item.id {
        assert !Publishes(logs[h], m.item.id);
      }
    } else if exists k :: r < k < |logs| && Publishes(logs[k], m.item.id) {
      assert false;
    }
  }

  // ---------------------------------------------------------------- the timeline

  function EventsOf(logs: seq<Log>): multiset<Keyed<Event>> {
    if logs == [] then multiset{}
    else
      var l := logs[|logs| - 1];
      EventsOf(logs[..|logs| - 1]) + multiset{Keyed(l.block, l.index, Happened(l.kind))}
  }

  /** The timeline is in order and holds the deployment and every ingested log, once per ingestion. */
  lemma {:induction false} TimelineIsSortedRecord(d: Deployment, logs: seq<Log>)
    ensures var c := Project(NewCluster(d), logs);
            && |c.events| == 1 + |logs|
            && multiset(c.events) == multiset{Keyed(d.block, d.index, Deployed(d.cluster))} + EventsOf(logs)
            && Sorted(c.events, Position)
            && Chronological(c.events)
  {
    if logs != [] {
      var front, l := logs[..|logs| - 1], logs[|logs| - 1];
      TimelineIsSortedRecord(d, front);
      StableSortSorts(Project(NewCluster(d), front).events + [Keyed(l.block, l.index, Happened(l.kind))], Position);
      InChainOrder(Project(NewCluster(d), logs).events);
    }
  }

  /** The commitment is the last one set, and the scanned block the highest ingested, from the one before the deployment on. */
  lemma {:induction false} CommitmentAndScan(d: Deployment, logs: seq<Log>)
    ensures var c := Project(NewCluster(d), logs);
            && c.deployment == d
            && (if exists j :: 0 <= j < |logs| && logs[j].kind.CskCommitmentSet?
                then exists j :: 0 <= j < |logs| && logs[j].kind.CskCommitmentSet? && c.csk == Some(logs[j].kind.commitment)
                                 && forall h | j < h < |logs| :: !logs[h].kind.CskCommitmentSet?
                else c.csk == None)
            && (forall l | l in logs :: l.block <= c.scannedTo) && (d.block > 0 ==> d.block - 1 <= c.scannedTo)
            && (c.scannedTo == 0 || c.scannedTo + 1 == d.block || exists l :: l in logs && l.block == c.scannedTo)
  {
    if logs != [] {
      var n := |logs| - 1;
      var front, l := logs[..n], logs[n];
      assert logs == front + [l];
      CommitmentAndScan(d, front);
      assert forall h | 0 <= h < n :: front[h] == logs[h];
      if l.kind.CskCommitmentSet? { assert logs[n].kind.CskCommitmentSet?; }
    }
  }

  // ---------------------------------------------------------------- what the runtime's history serves

  lemma {:induction false} SelectAgain(chain: seq<Log>, a: Audience, lo: int, mid: int, hi: int)
    requires ChainOrdered(chain) && lo <= mid <= hi
    ensures var n := |Select(chain, a, lo, mid)|; var all := Select(chain, a, lo, hi);
            n <= |all| && all[..n] == Select(chain, a, lo, mid) && all[n..] == Select(chain, a, mid, hi)
  {
    SelectAdjacent(chain, a, lo, mid, hi);
  }

  lemma NothingSelected(chain: seq<Log>, c: Address, lo: int, hi: int)
    requires NoneBetween(chain, c, lo, hi)
    ensures Select(chain, Only(c), lo, hi) == []
  {
    if Select(chain, Only(c), lo, hi) != [] { SelectMembers(chain, Only(c), lo, hi, Select(chain, Only(c), lo, hi)[0]); }
  }

  /** Without a log between them, two reads that do not meet are one. */
  lemma GapIsHarmless(chain: seq<Log>, c: Address, through: nat, from: nat, last: nat)
    requires ChainOrdered(chain) && NoneBetween(chain, c, through, from) && through <= from <= last
    ensures Select(chain, Only(c), 0, through) + Select(chain, Only(c), from, last) == Select(chain, Only(c), 0, last)
  {
    NothingSelected(chain, c, through, from);
    SelectAdjacent(chain, Only(c), 0, through, from);
    SelectAdjacent(chain, Only(c), 0, from, last);
  }

  lemma OverlapIsServedOnce(chain: seq<Log>, d: Deployment, through: nat, from: nat, last: nat)
    requires ChainOrdered(chain) && from <= through <= last
    requires LastKeysLand(Select(chain, Only(d.cluster), 0, through))
    ensures Served(Project(NewCluster(d), Select(chain, Only(d.cluster), 0, through) + Select(chain, Only(d.cluster), from, last)))
            == Served(Project(NewCluster(d), Select(chain, Only(d.cluster), 0, last)))
  {
    var a := Only(d.cluster);
    SelectAgain(chain, a, 0, through, last);
    SelectAgain(chain, a, 0, from, last);
    SelectAgain(chain, a, 0, from, through);
    OverlapServesTheSame(d, Select(chain, a, 0, last), |Select(chain, a, 0, through)|, |Select(chain, a, 0, from)|);
  }

  /** Without a log in the pages read during the admission, the backfill comes first. */
  lemma BackfillFirst(chain: seq<Log>, history: seq<Log>, c: Address, r: Resume, last: nat)
    requires ChainOrdered(chain) && Backed(chain, history, c, r, last) && r.Resume?
    requires NoneBetween(chain, c, r.from, r.placed)
    ensures Filter(history, Only(c)) == Select(chain, Only(c), 0, r.through) + Select(chain, Only(c), r.from, last)
  {
    NothingSelected(chain, c, r.from, r.placed);
    SelectAdjacent(chain, Only(c), r.from, r.placed, last);
    EmptyFirst(Select(chain, Only(c), r.from, r.placed), Select(chain, Only(c), 0, r.through), Select(chain, Only(c), r.placed, last));
  }

  /**
   * Whatever boots, pages, backfills and failures produced the history: if nothing of a cluster lies between its backfill and
   * its pages, nor in a page read during its admission, then once the watermark is past the backfill the cluster is served as
   * if its logs up to the watermark had been ingested exactly once.
   */
  lemma ServedAsIfReadOnce(chain: seq<Log>, history: seq<Log>, d: Deployment, r: Resume, last: nat)
    requires ChainOrdered(chain) && Backed(chain, history, d.cluster, r, last) && r.Resume? && r.through <= last
    requires Gapless(chain, d.cluster, r) && NoneBetween(chain, d.cluster, r.from, r.placed)
    requires LastKeysLand(Select(chain, Only(d.cluster), 0, r.through))
    ensures Served(Project(NewCluster(d), Filter(history, Only(d.cluster))))
            == Served(Project(NewCluster(d), Select(chain, Only(d.cluster), 0, last)))
  {
    BackfillFirst(chain, history, d.cluster, r, last);
    if r.from <= r.through {
      OverlapIsServedOnce(chain, d, r.through, r.from, last);
    } else {
      GapIsHarmless(chain, d.cluster, r.through, r.from, last);
    }
  }

  /** The hypothesis on the admission is needed: a key in a page handed over before the backfill that registers its member is lost. */
  lemma BackfillAfterPageLosesKey(d: Deployment, reg: Log, published: Log)
    requires reg.kind.MemberRegistered? && Publishes(published, reg.kind.member) && published.kind.wgKey != reg.kind.wgKey
    ensures Project(NewCluster(d), [published, reg]).members == [Registered(reg)]
    ensures Project(NewCluster(d), [reg, published]).members == [Rekeyed(Registered(reg), published.kind.wgKey)] != [Registered(reg)]
  {
    ProjectTwo(NewCluster(d), published, reg);
    EarlyKeyIsLost(published, reg);
    ProjectTwo(NewCluster(d), reg, published);
    SortPushed([], Registered(reg), Position);
    assert [] + [Registered(reg)] == [Registered(reg)];
    var one := [Registered(reg)];
    assert one[..0] == [] && FindMember(one, reg.kind.member) == 0;
    assert one[0 := Rekeyed(one[0], published.kind.wgKey)] == [Rekeyed(Registered(reg), published.kind.wgKey)];
  }

  // ---------------------------------------------------------------- the locked model

  function IngestedAll(m: map<Address, Cluster>, logs: seq<Log>): map<Address, Cluster> {
    if logs == [] then m
    else
      var before, l := IngestedAll(m, logs[..|logs| - 1]), logs[|logs| - 1];
      if l.cluster in before then before[l.cluster := Ingested(before[l.cluster], l)] else before
  }

  /** Each cluster is projected from its own logs; logs of clusters not in the model are dropped. */
  lemma {:induction false} ClustersAreIsolated(m: map<Address, Cluster>, logs: seq<Log>, c: Address)
    ensures IngestedAll(m, logs).Keys == m.Keys
    ensures c in m ==> IngestedAll(m, logs)[c] == Project(m[c], Filter(logs, Only(c)))
  {
    if logs != [] {
      var front, l := logs[..|logs| - 1], logs[|logs| - 1];
      ClustersAreIsolated(m, front, c);
      var f := Filter(front, Only(c));
      if l.cluster == c {
        assert Filter(logs, Only(c)) == f + [l] && (f + [l])[..|f|] == f;
      } else {
        assert Filter(logs, Only(c)) == f;
      }
    }
  }

  /**
   * What one log does to a member list: the first registration of an id adds its member, a published key replaces the one of
   * its member, and nothing else changes anything.
   */
  ghost predicate MembersUpdated(before: seq<Keyed<Info>>, after: seq<Keyed<Info>>, l: Log) {
    match l.kind
    case MemberRegistered(id, contract, attestor, xKey, wgKey, registeredAt) =>
      if exists i :: 0 <= i < |before| && before[i].item.id == id then after == before
      else
        multiset(after) == multiset(before) + multiset{Keyed(l.block, l.index, Info(id, contract, attestor, xKey, wgKey, registeredAt))}
    case WgKeyPublished(id, key) =>
      && |after| == |before|
      && forall i | 0 <= i < |before| :: RekeyedAt(before, after, i, id, key)
    case MessageSent(_, _, _) => after == before
    case CskCommitmentSet(_) => after == before
  }

  /** The first member with this id has the key now, and the others are as they were. */
  predicate RekeyedAt(before: seq<Keyed<Info>>, after: seq<Keyed<Info>>, i: nat, id: MemberId, key: nat)
    requires i < |before| && i < |after|
  {
    after[i] ==
      if before[i].item.id == id && forall h | 0 <= h < i :: before[h].item.id != id
      then Keyed(before[i].block, before[i].index, before[i].item.(wgKey := key)) else before[i]
  }

  lemma UpdatesMembers(ms: seq<Keyed<Info>>, l: Log)
    ensures MembersUpdated(ms, MembersAfter(ms, l), l)
  {
    match l.kind
    case MemberRegistered(id, _, _, _, _, _) =>
      FoundIffPresent(ms, id);
      if !Has(ms, id) { StableSortSorts(ms + [Registered(l)], Position); }
    case WgKeyPublished(id, key) =>
      var n := FindMember(ms, id);
    case _ =>
  }

  /** What one log does to the cluster it belongs to. */
  ghost predicate ClusterUpdated(before: Cluster, after: Cluster, l: Log) {
    && after.deployment == before.deployment
    && after.csk == (if l.kind.CskCommitmentSet? then Some(l.kind.commitment) else before.csk)
    && before.scannedTo <= after.scannedTo && l.block <= after.scannedTo && (after.scannedTo == before.scannedTo || after.scannedTo == l.block)
    && MembersUpdated(before.members, after.members, l)
    && multiset(after.events) == multiset(before.events) + multiset{Keyed(l.block, l.index, Happened(l.kind))}
  }

  lemma UpdatesCluster(c: Cluster, l: Log)
    ensures ClusterUpdated(c, Ingested(c, l), l)
  {
    UpdatesMembers(c.members, l);
    StableSortSorts(c.events + [Keyed(l.block, l.index, Happened(l.kind))], Position);
  }

  class Model {
    var clusters: map<Address, Cluster>
    var order: seq<Keyed<Address>>

    ghost predicate Valid()
      reads this
    {
      Sorted(order, Position) && Listed(order, clusters)
    }

    constructor ()
      ensures Valid() && clusters == map[]
    {
      clusters, order := map[], [];
    }

    method AddCluster(d: Deployment) returns (added: bool)
      requires Valid()
      modifies this
      ensures Valid() && (added <==> d.cluster !in old(clusters))
      ensures !added ==> clusters == old(clusters) && order == old(order)
      ensures added ==> clusters == old(clusters)[d.cluster := NewCluster(d)]
      ensures added ==>
                clusters[d.cluster] == Cluster(d, None, if d.block == 0 then 0 else d.block - 1, [], [Keyed(d.block, d.index, Deployed(d.cluster))])
      ensures added ==> multiset(order) == multiset(old(order)) + multiset{Keyed(d.block, d.index, d.cluster)}
      ensures Chronological(order)
    {
      InChainOrder(order);
      if d.cluster in clusters { return false; }
      StableSortSorts(order + [EntryOf(d)], Position);
      ListedMore(order, clusters, d);
      order := StableSort(order + [EntryOf(d)], Position);
      InChainOrder(order);
      clusters := clusters[d.cluster := NewCluster(d)];
      added := true;
    }

    method Find(ms: seq<Keyed<Info>>, id: MemberId) returns (n: nat)
      ensures n == FindMember(ms, id)
    {
      n := 0;
      while n < |ms| && ms[n].item.id != id
        invariant n <= |ms| && forall i | 0 <= i < n :: ms[i].item.id != id
      {
        n := n + 1;
      }
      assert FindMember(ms, id) < |ms| ==> ms[FindMember(ms, id)].item.id == id;
    }

    /** A first registration is pushed and sorted in; a key lands on the member if it is known; the rest is ignored. */
    method UpdateMembers(ms: seq<Keyed<Info>>, l: Log) returns (r: seq<Keyed<Info>>)
      ensures r == MembersAfter(ms, l)
      ensures MembersUpdated(ms, r, l)
    {
      UpdatesMembers(ms, l);
      r := ms;
      match l.kind {
        case MemberRegistered(id, _, _, _, _, _) =>
          var n := Find(ms, id);
          if n == |ms| { r := StableSort(ms + [Registered(l)], Position); }
        case WgKeyPublished(id, key) =>
          var n := Find(ms, id);
          if n < |ms| { r := ms[n := Rekeyed(ms[n], key)]; }
        case MessageSent(_, _, _) =>
        case CskCommitmentSet(_) =>
      }
    }

    method Ingest(l: Log)
      requires Valid()
      modifies `clusters
      ensures Valid() && clusters == IngestedAll(old(clusters), [l])
      ensures l.cluster !in old(clusters) ==> clusters == old(clusters)
      ensures l.cluster in old(clusters) ==>
                && l.cluster in clusters && clusters == old(clusters)[l.cluster := clusters[l.cluster]]
                && ClusterUpdated(old(clusters)[l.cluster], clusters[l.cluster], l)
    {
      assert [l][..0] == [];
      if l.cluster !in clusters { return; }
      ListedStill(order, clusters, l);
      var c := clusters[l.cluster];
      UpdatesCluster(c, l);
      var members := UpdateMembers(c.members, l);
      var csk := if l.kind.CskCommitmentSet? then Some(l.kind.commitment) else c.csk;
      var scannedTo := if c.scannedTo < l.block then l.block else c.scannedTo;
      var events := StableSort(c.events + [Keyed(l.block, l.index, Happened(l.kind))], Position);
      clusters := clusters[l.cluster := Cluster(c.deployment, csk, scannedTo, members, events)];
    }
  }

  function EntryOf(d: Deployment): Keyed<Address> {
    Keyed(d.block, d.index, d.cluster)
  }

  predicate ListedAt(order: seq<Keyed<Address>>, c: Address, cluster: Cluster) {
    cluster.deployment.cluster == c && EntryOf(cluster.deployment) in order
  }

  /** The order list names every cluster of the model once, under its deployment's block and index. */
  predicate Listed(order: seq<Keyed<Address>>, clusters: map<Address, Cluster>) {
    && (forall c | c in clusters :: ListedAt(order, c, clusters[c]))
    && (forall e | e in order :: e.item in clusters)
    && |order| == |clusters|
  }

  lemma SortedHolds(order: seq<Keyed<Address>>, e: Keyed<Address>, x: Keyed<Address>)
    ensures x in StableSort(order + [e], Position) <==> x in order || x == e
  {
    StableSortSorts(order + [e], Position);
    InMultiset(StableSort(order + [e], Position), x);
    InMultiset(order + [e], x);
  }

  lemma OneMore(m: map<Address, Cluster>, c: Address, v: Cluster)
    requires c !in m
    ensures |m[c := v]| == |m| + 1
  {
    assert m[c := v].Keys == m.Keys + {c};
    assert |m[c := v].Keys| == |m.Keys| + 1;
  }

  lemma ListedMore(order: seq<Keyed<Address>>, clusters: map<Address, Cluster>, d: Deployment)
    requires Listed(order, clusters) && d.cluster !in clusters
    ensures Listed(StableSort(order + [EntryOf(d)], Position), clusters[d.cluster := NewCluster(d)])
  {
    var sorted, more := StableSort(order + [EntryOf(d)], Position), clusters[d.cluster := NewCluster(d)];
    OneMore(clusters, d.cluster, NewCluster(d));
    forall c | c in more ensures ListedAt(sorted, c, more[c]) {
      SortedHolds(order, EntryOf(d), EntryOf(more[c].deployment));
    }
    forall e | e in sorted ensures e.item in more {
      SortedHolds(order, EntryOf(d), e);
    }
  }

  lemma ListedStill(order: seq<Keyed<Address>>, clusters: map<Address, Cluster>, l: Log)
    requires Listed(order, clusters) && l.cluster in clusters
    ensures Listed(order, clusters[l.cluster := Ingested(clusters[l.cluster], l)])
  {
    assert clusters[l.cluster := Ingested(clusters[l.cluster], l)].Keys == clusters.Keys;
  }
}
