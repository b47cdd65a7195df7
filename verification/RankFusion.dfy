/** Reciprocal-rank fusion of the evaluator's search arms. */
module RankFusion {
  import opened Options

  datatype Key = Key(source: nat, document: nat)

  /** A search hit. Zero stands for an empty context; payload is whatever else the row carries. */
  datatype Row = Row(key: Key, context: nat, payload: nat)

  type Arm = seq<Row>

  datatype Item = Item(key: Key, payload: nat, context: nat, score: real, arms: map<nat, nat>)

  const RRF_K: nat := 60

  function Weight(rank: nat): (w: real)
    requires rank > 0
    ensures w > 0.0
  {
    1.0 / ((RRF_K + rank) as real)
  }

  // ---------------------------------------------------------------- specification

  /** One-based position of the first hit of k in an arm, or zero. */
  function FirstRank(arm: Arm, k: Key): (n: nat)
    ensures n <= |arm|
    ensures n > 0 ==> arm[n - 1].key == k && forall i | 0 <= i < n - 1 :: arm[i].key != k
    ensures n == 0 ==> forall i | 0 <= i < |arm| :: arm[i].key != k
  {
    if arm == [] then 0
    else
      var n := FirstRank(arm[..|arm| - 1], k);
      if n > 0 then n else if arm[|arm| - 1].key == k then |arm| else 0
  }

  function Gain(arm: Arm, k: Key): (g: real)
    ensures g >= 0.0
  {
    var n := FirstRank(arm, k);
    if n > 0 then 1.0 / ((60 + n) as real) else 0.0
  }

  /** The sum over arms of 1 / (60 + first rank). */
  function Score(arms: seq<Arm>, k: Key): real {
    if arms == [] then 0.0 else Score(arms[..|arms| - 1], k) + Gain(arms[|arms| - 1], k)
  }

  function Started(row: Row): Item {
    Item(row.key, row.payload, row.context, 0.0, map[])
  }

  /** One arm's first hit adds its weight and rank, and fills in a missing context. */
  function Improved(item: Item, row: Row, arm: nat, rank: nat): Item
    requires rank > 0
  {
    Item(item.key, item.payload, if item.context == 0 then row.context else item.context,
         item.score + Weight(rank), item.arms[arm := rank])
  }

  function Joined(before: Option<Item>, arm: Arm, index: nat, k: Key): Option<Item> {
    var n := FirstRank(arm, k);
    if n == 0 then before
    else Some(Improved(if before.Some? then before.value else Started(arm[n - 1]), arm[n - 1], index, n))
  }

  /** The fused item of a document over whole arms, if any arm hit it. */
  function Fusion(arms: seq<Arm>, k: Key): Option<Item> {
    if arms == [] then None
    else Joined(Fusion(arms[..|arms| - 1], k), arms[|arms| - 1], |arms| - 1, k)
  }

  predicate HitBy(arms: seq<Arm>, k: Key) {
    exists i :: 0 <= i < |arms| && FirstRank(arms[i], k) > 0
  }

  lemma HitByLast(arms: seq<Arm>, k: Key)
    requires arms != []
    ensures HitBy(arms, k) <==> HitBy(arms[..|arms| - 1], k) || FirstRank(arms[|arms| - 1], k) > 0
  {
    var front := arms[..|arms| - 1];
    if HitBy(front, k) {
      var i :| 0 <= i < |front| && FirstRank(front[i], k) > 0;
      assert arms[i] == front[i];
    }
    if HitBy(arms, k) {
      var i :| 0 <= i < |arms| && FirstRank(arms[i], k) > 0;
      if i < |front| { assert front[i] == arms[i]; }
    }
  }

  /** A document is in the fusion when some arm hit it, and its score is its reciprocal-rank sum. */
  lemma {:induction false} FusionIsScored(arms: seq<Arm>, k: Key)
    ensures Fusion(arms, k).Some? <==> HitBy(arms, k)
    ensures Fusion(arms, k).None? ==> Score(arms, k) == 0.0
    ensures Fusion(arms, k).Some? ==> Fusion(arms, k).value.key == k && Fusion(arms, k).value.score == Score(arms, k)
  {
    if arms != [] {
      FusionIsScored(arms[..|arms| - 1], k);
      HitByLast(arms, k);
    }
  }

  function RankOf(item: Item, a: nat): nat {
    if a in item.arms then item.arms[a] else 0
  }

  /** Each fused item lists its first rank in exactly the arms that hit it. */
  lemma {:induction false} FusionListsRanks(arms: seq<Arm>, k: Key, a: nat)
    requires Fusion(arms, k).Some?
    ensures RankOf(Fusion(arms, k).value, a) == if a < |arms| then FirstRank(arms[a], k) else 0
  {
    var front, n := arms[..|arms| - 1], FirstRank(arms[|arms| - 1], k);
    if Fusion(front, k).Some? {
      FusionListsRanks(front, k, a);
    } else {
      FusionIsScored(front, k);
      if a < |front| { assert front[a] == arms[a]; }
    }
  }

  /** The first hit of k in arm a, of the arms that have one. */
  function Hit(arms: seq<Arm>, k: Key, a: nat): Row
    requires a < |arms| && FirstRank(arms[a], k) > 0
  {
    arms[a][FirstRank(arms[a], k) - 1]
  }

  /** It carries the payload of the first arm's hit. */
  lemma {:induction false} FusionCarriesPayload(arms: seq<Arm>, k: Key, a: nat)
    requires a < |arms| && FirstRank(arms[a], k) > 0 && forall b | 0 <= b < a :: FirstRank(arms[b], k) == 0
    ensures Fusion(arms, k).Some? && Fusion(arms, k).value.payload == Hit(arms, k, a).payload
  {
    var front := arms[..|arms| - 1];
    if a < |front| {
      assert Hit(front, k, a) == Hit(arms, k, a);
      FusionCarriesPayload(front, k, a);
    } else {
      FusionIsScored(front, k);
    }
  }

  predicate HasContext(arms: seq<Arm>, k: Key, a: nat) {
    a < |arms| && FirstRank(arms[a], k) > 0 && Hit(arms, k, a).context != 0
  }

  lemma {:induction false} NoContext(arms: seq<Arm>, k: Key)
    requires Fusion(arms, k).Some? && forall a: nat :: !HasContext(arms, k, a)
    ensures Fusion(arms, k).value.context == 0
  {
    var n := |arms| - 1;
    assert !HasContext(arms, k, n);
    if Fusion(arms[..n], k).Some? {
      forall a: nat ensures !HasContext(arms[..n], k, a) { assert !HasContext(arms, k, a); }
      NoContext(arms[..n], k);
    }
  }

  /** And the first context that is not empty, in the order of the arms. */
  lemma {:induction false} FusionCarriesContext(arms: seq<Arm>, k: Key, a: nat)
    requires HasContext(arms, k, a) && forall b: nat | b < a :: !HasContext(arms, k, b)
    ensures Fusion(arms, k).Some? && Fusion(arms, k).value.context == Hit(arms, k, a).context
  {
    var n := |arms| - 1;
    if a < n {
      assert HasContext(arms[..n], k, a);
      forall b: nat | b < a ensures !HasContext(arms[..n], k, b) { assert !HasContext(arms, k, b); }
      FusionCarriesContext(arms[..n], k, a);
    } else if Fusion(arms[..n], k).Some? {
      forall b: nat ensures !HasContext(arms[..n], k, b) { assert b < n ==> !HasContext(arms, k, b); }
      NoContext(arms[..n], k);
    }
  }

  predicate KeyLess(a: Key, b: Key) {
    a.source < b.source || (a.source == b.source && a.document < b.document)
  }

  /** Higher scores first, ties by key. */
  predicate Before(a: Item, b: Item) {
    a.score > b.score || (a.score == b.score && KeyLess(a.key, b.key))
  }

  predicate InOrder(s: seq<Item>) {
    forall i, j | 0 <= i < j < |s| :: Before(s[i], s[j])
  }

  /** Every document that some arm hit, once, best first. */
  ghost predicate IsRanking(arms: seq<Arm>, all: seq<Item>) {
    && InOrder(all)
    && (forall x | x in all :: Fusion(arms, x.key) == Some(x))
    && (forall k: Key | Fusion(arms, k).Some? :: Fusion(arms, k).value in all)
  }

  function Take<T>(s: seq<T>, limit: nat): seq<T> {
    if limit < |s| then s[..limit] else s
  }

  ghost predicate TopOf(arms: seq<Arm>, limit: nat, r: seq<Item>, all: seq<Item>) {
    IsRanking(arms, all) && r == Take(all, limit)
  }

  /** The result of fusing: the first `limit` of a ranking. */
  ghost predicate IsFusion(arms: seq<Arm>, limit: nat, r: seq<Item>) {
    exists all :: TopOf(arms, limit, r, all)
  }

  // ---------------------------------------------------------------- the scoring loops

  function Entry(fused: map<Key, Item>, k: Key): Option<Item> {
    if k in fused then Some(fused[k]) else None
  }

  /** The dictionary holds exactly the fused items of the arms before and of what was read of this one. */
  ghost predicate Holds(fused: map<Key, Item>, front: seq<Arm>, index: nat, rows: Arm) {
    forall k: Key :: Entry(fused, k) == Joined(Fusion(front, k), rows, index, k)
  }

  ghost predicate HoldsAll(fused: map<Key, Item>, arms: seq<Arm>) {
    forall k: Key :: Entry(fused, k) == Fusion(arms, k)
  }

  lemma RankStep(rows: Arm, row: Row, k: Key)
    ensures FirstRank(rows + [row], k) ==
      if FirstRank(rows, k) > 0 then FirstRank(rows, k) else if row.key == k then |rows| + 1 else 0
  {
    assert (rows + [row])[..|rows|] == rows;
  }

  lemma JoinStep(before: Option<Item>, rows: Arm, row: Row, index: nat, k: Key)
    ensures Joined(before, rows + [row], index, k) ==
      if row.key != k || FirstRank(rows, k) > 0 then Joined(before, rows, index, k)
      else Some(Improved(if before.Some? then before.value else Started(row), row, index, |rows| + 1))
  {
    RankStep(rows, row, k);
    var n := FirstRank(rows, k);
    if n > 0 { assert (rows + [row])[n - 1] == rows[n - 1]; }
  }

  lemma RowSkipped(fused: map<Key, Item>, front: seq<Arm>, index: nat, rows: Arm, row: Row)
    requires Holds(fused, front, index, rows) && FirstRank(rows, row.key) > 0
    ensures Holds(fused, front, index, rows + [row])
  {
    forall k: Key ensures Entry(fused, k) == Joined(Fusion(front, k), rows + [row], index, k) {
      JoinStep(Fusion(front, k), rows, row, index, k);
    }
  }

  lemma RowCounted(fused: map<Key, Item>, front: seq<Arm>, index: nat, rows: Arm, row: Row)
    requires Holds(fused, front, index, rows) && FirstRank(rows, row.key) == 0
    ensures var item := if row.key in fused then fused[row.key] else Started(row);
            Holds(fused[row.key := Improved(item, row, index, |rows| + 1)], front, index, rows + [row])
  {
    var item := if row.key in fused then fused[row.key] else Started(row);
    var more := fused[row.key := Improved(item, row, index, |rows| + 1)];
    assert Entry(fused, row.key) == Joined(Fusion(front, row.key), rows, index, row.key);
    forall k: Key ensures Entry(more, k) == Joined(Fusion(front, k), rows + [row], index, k) {
      JoinStep(Fusion(front, k), rows, row, index, k);
      assert Entry(fused, k) == Joined(Fusion(front, k), rows, index, k);
    }
  }

  ghost predicate SeenAre(seen: set<Key>, rows: Arm) {
    forall k: Key :: k in seen <==> FirstRank(rows, k) > 0
  }

  lemma SeenStep(seen: set<Key>, rows: Arm, row: Row)
    requires SeenAre(seen, rows)
    ensures SeenAre(seen + {row.key}, rows + [row])
  {
    forall k: Key ensures k in seen + {row.key} <==> FirstRank(rows + [row], k) > 0 {
      RankStep(rows, row, k);
    }
  }

  method FuseArm(fused: map<Key, Item>, ghost front: seq<Arm>, index: nat, rows: Arm) returns (more: map<Key, Item>)
    requires HoldsAll(fused, front)
    ensures Holds(more, front, index, rows)
  {
    more := fused;
    var seen: set<Key> := {};
    var n := 0;
    while n < |rows|
      invariant n <= |rows| && Holds(more, front, index, rows[..n]) && SeenAre(seen, rows[..n])
    {
      var row := rows[n];
      assert rows[..n] + [row] == rows[..n + 1];
      SeenStep(seen, rows[..n], row);
      if row.key in seen {
        RowSkipped(more, front, index, rows[..n], row);
        assert seen + {row.key} == seen;
      } else {
        RowCounted(more, front, index, rows[..n], row);
        seen := seen + {row.key};
        var item := if row.key in more then more[row.key] else Started(row);
        more := more[row.key := Improved(item, row, index, n + 1)];
      }
      n := n + 1;
    }
    assert rows[..n] == rows;
  }

  lemma ArmDone(fused: map<Key, Item>, arms: seq<Arm>, a: nat)
    requires a < |arms| && Holds(fused, arms[..a], a, arms[a])
    ensures HoldsAll(fused, arms[..a + 1])
  {
    assert arms[..a + 1][..a] == arms[..a];
    forall k: Key ensures Entry(fused, k) == Fusion(arms[..a + 1], k) {
      assert Entry(fused, k) == Joined(Fusion(arms[..a], k), arms[a], a, k);
    }
  }

  // ---------------------------------------------------------------- sorting

  function InsertRanked(s: seq<Item>, x: Item): seq<Item> {
    if s == [] || Before(s[|s| - 1], x) then s + [x]
    else InsertRanked(s[..|s| - 1], x) + [s[|s| - 1]]
  }

  lemma {:induction false} InsertRankedHolds(s: seq<Item>, x: Item, y: Item)
    ensures y in InsertRanked(s, x) <==> y in s || y == x
  {
    if s != [] && !Before(s[|s| - 1], x) {
      assert s == s[..|s| - 1] + [s[|s| - 1]];
      InsertRankedHolds(s[..|s| - 1], x, y);
    }
  }

  lemma {:induction false} InsertRankedOrdered(s: seq<Item>, x: Item)
    requires InOrder(s) && forall y | y in s :: y.key != x.key
    ensures InOrder(InsertRanked(s, x))
  {
    if s != [] && Before(s[|s| - 1], x) {
      forall i | 0 <= i < |s| ensures Before(s[i], x) {
        if i < |s| - 1 { assert Before(s[i], s[|s| - 1]); }
      }
    } else if s != [] {
      var front, l := s[..|s| - 1], s[|s| - 1];
      InsertRankedOrdered(front, x);
      var r := InsertRanked(front, x);
      forall i | 0 <= i < |r| ensures Before(r[i], l) {
        InsertRankedHolds(front, x, r[i]);
        if r[i] in front {
          var j :| 0 <= j < |front| && front[j] == r[i];
          assert Before(s[j], s[|s| - 1]);
        }
      }
    }
  }

  /** What has been sorted so far: the items of the keys already taken. */
  ghost predicate SortedSoFar(fused: map<Key, Item>, todo: set<Key>, s: seq<Item>) {
    && InOrder(s)
    && (forall x | x in s :: x.key in fused && x.key !in todo && x == fused[x.key])
    && (forall k | k in fused && k !in todo :: fused[k] in s)
  }

  lemma SortedOneMore(fused: map<Key, Item>, todo: set<Key>, s: seq<Item>, k: Key)
    requires SortedSoFar(fused, todo, s) && k in todo && k in fused && forall j | j in fused :: fused[j].key == j
    ensures SortedSoFar(fused, todo - {k}, InsertRanked(s, fused[k]))
  {
    InsertRankedOrdered(s, fused[k]);
    forall y ensures y in InsertRanked(s, fused[k]) <==> y in s || y == fused[k] {
      InsertRankedHolds(s, fused[k], y);
    }
  }

  lemma SortedIsRanking(fused: map<Key, Item>, arms: seq<Arm>, all: seq<Item>)
    requires HoldsAll(fused, arms) && SortedSoFar(fused, {}, all)
    ensures IsRanking(arms, all)
  {
    forall x | x in all ensures Fusion(arms, x.key) == Some(x) { assert Entry(fused, x.key) == Some(x); }
    forall k: Key | Fusion(arms, k).Some? ensures Fusion(arms, k).value in all {
      assert Entry(fused, k) == Fusion(arms, k);
    }
  }

  lemma KeysMatch(fused: map<Key, Item>, arms: seq<Arm>)
    requires HoldsAll(fused, arms)
    ensures forall k | k in fused :: fused[k].key == k
  {
    forall k | k in fused ensures fused[k].key == k {
      FusionIsScored(arms, k);
      assert Entry(fused, k) == Fusion(arms, k);
    }
  }

  method Fuse(arms: seq<Arm>, limit: nat) returns (r: seq<Item>)
    ensures IsFusion(arms, limit, r)
  {
    var fused: map<Key, Item> := map[];
    var a := 0;
    while a < |arms|
      invariant a <= |arms| && HoldsAll(fused, arms[..a])
    {
      fused := FuseArm(fused, arms[..a], a, arms[a]);
      ArmDone(fused, arms, a);
      a := a + 1;
    }
    assert arms[..a] == arms;
    KeysMatch(fused, arms);
    var todo, all := fused.Keys, [];
    while todo != {}
      invariant todo <= fused.Keys && SortedSoFar(fused, todo, all)
    {
      var k :| k in todo;
      SortedOneMore(fused, todo, all, k);
      all := InsertRanked(all, fused[k]);
      todo := todo - {k};
    }
    SortedIsRanking(fused, arms, all);
    r := Take(all, limit);
    assert TopOf(arms, limit, r, all);
  }

  // ---------------------------------------------------------------- what the ranking means

  lemma CutIsBelow(arms: seq<Arm>, limit: nat, r: seq<Item>, all: seq<Item>, x: Item, i: nat)
    requires TopOf(arms, limit, r, all) && i < |r| && x in all && x !in r
    ensures |r| == limit && Before(r[i], x)
  {
    var n :| 0 <= n < |all| && all[n] == x;
    assert forall j | 0 <= j < |r| :: r[j] == all[j] && r[j] in r;
    assert n >= |r|;
    assert Before(all[i], all[n]);
  }

  /** No document is listed twice. */
  lemma ResultsAreDistinct(arms: seq<Arm>, limit: nat, r: seq<Item>, i: nat, j: nat)
    requires IsFusion(arms, limit, r) && i < j < |r|
    ensures r[i].key != r[j].key
  {
    var all :| TopOf(arms, limit, r, all);
    assert Before(all[i], all[j]) && all[i] in all && all[j] in all;
  }

  /** Results are in order, each with its reciprocal-rank sum, and whatever was cut ranks below all of them. */
  lemma TopByScore(arms: seq<Arm>, limit: nat, r: seq<Item>, k: Key, i: nat)
    requires IsFusion(arms, limit, r) && i < |r|
    ensures |r| <= limit && r[i].score == Score(arms, r[i].key)
    // higher scores first, equal ones by source and document
    ensures forall j | i < j < |r| ::
              var a, b := r[i], r[j];
              a.score > b.score || (a.score == b.score
                && (a.key.source < b.key.source || (a.key.source == b.key.source && a.key.document < b.key.document)))
    ensures HitBy(arms, k) ==>
              || (exists j :: 0 <= j < |r| && r[j].key == k)
              || (|r| == limit && (r[i].score > Score(arms, k) || (r[i].score == Score(arms, k)
                    && (r[i].key.source < k.source || (r[i].key.source == k.source && r[i].key.document < k.document)))))
  {
    var all :| TopOf(arms, limit, r, all);
    assert all[i] in all;
    FusionIsScored(arms, r[i].key);
    FusionIsScored(arms, k);
    if HitBy(arms, k) {
      var x := Fusion(arms, k).value;
      if x in r {
        var j :| 0 <= j < |r| && r[j] == x;
        assert r[j].key == k;
      } else {
        CutIsBelow(arms, limit, r, all, x, i);
      }
    }
  }

  lemma {:induction false} ScoreWithout(arms: seq<Arm>, i: nat, k: Key)
    requires i < |arms|
    ensures Score(arms, k) == Score(arms[..i] + arms[i + 1..], k) + Gain(arms[i], k)
  {
    var front, n := arms[..|arms| - 1], |arms| - 1;
    if i < n {
      ScoreWithout(front, i, k);
      assert (arms[..i] + arms[i + 1..])[..n - 1] == front[..i] + front[i + 1..];
    } else {
      assert arms[..i] + arms[i + 1..] == front;
    }
  }

  lemma Cancelled<T>(a: multiset<T>, b: multiset<T>, x: T)
    requires a + multiset{x} == b + multiset{x}
    ensures a == b
  {
    assert a == (a + multiset{x}) - multiset{x};
    assert b == (b + multiset{x}) - multiset{x};
  }

  lemma {:induction false} ScoreOfPermuted(arms: seq<Arm>, arms': seq<Arm>, k: Key)
    requires multiset(arms) == multiset(arms')
    ensures Score(arms, k) == Score(arms', k)
    decreases |arms|
  {
    if arms == [] {
      assert |multiset(arms')| == |arms'|;
    } else {
      var front, x := arms[..|arms| - 1], arms[|arms| - 1];
      assert arms == front + [x];
      assert x in multiset(arms');
      var i :| 0 <= i < |arms'| && arms'[i] == x;
      var rest := arms'[..i] + arms'[i + 1..];
      assert arms' == arms'[..i] + [x] + arms'[i + 1..];
      assert multiset(arms') == multiset(rest) + multiset{x};
      Cancelled(multiset(front), multiset(rest), x);
      ScoreOfPermuted(front, rest, k);
      ScoreWithout(arms', i, k);
    }
  }

  lemma PermutedHits(arms: seq<Arm>, arms': seq<Arm>, k: Key)
    requires multiset(arms) == multiset(arms') && HitBy(arms, k)
    ensures HitBy(arms', k)
  {
    var i :| 0 <= i < |arms| && FirstRank(arms[i], k) > 0;
    assert arms[i] in multiset(arms');
    var j :| 0 <= j < |arms'| && arms'[j] == arms[i];
  }

  type Place = (Key, real)

  predicate PlaceBefore(a: Place, b: Place) {
    a.1 > b.1 || (a.1 == b.1 && KeyLess(a.0, b.0))
  }

  predicate PlacesInOrder(s: seq<Place>) {
    forall i, j | 0 <= i < j < |s| :: PlaceBefore(s[i], s[j])
  }

  function Places(s: seq<Item>): (p: seq<Place>)
    ensures |p| == |s| && forall i | 0 <= i < |s| :: p[i] == (s[i].key, s[i].score)
  {
    if s == [] then [] else Places(s[..|s| - 1]) + [(s[|s| - 1].key, s[|s| - 1].score)]
  }

  lemma SameLast(p: seq<Place>, q: seq<Place>)
    requires PlacesInOrder(p) && PlacesInOrder(q) && p != [] && q != [] && p[|p| - 1] in q && q[|q| - 1] in p
    ensures p[|p| - 1] == q[|q| - 1]
  {
    var i :| 0 <= i < |p| && p[i] == q[|q| - 1];
    var j :| 0 <= j < |q| && q[j] == p[|p| - 1];
    if i < |p| - 1 { assert PlaceBefore(p[i], p[|p| - 1]); }
    if j < |q| - 1 { assert PlaceBefore(q[j], q[|q| - 1]); }
  }

  lemma FrontWithoutLast(p: seq<Place>, x: Place)
    requires PlacesInOrder(p) && p != []
    ensures x in p[..|p| - 1] <==> x in p && x != p[|p| - 1]
  {
    if x in p[..|p| - 1] {
      var i :| 0 <= i < |p| - 1 && p[i] == x;
      assert PlaceBefore(p[i], p[|p| - 1]);
    }
  }

  /** Strictly ordered lists with the same members are the same list. */
  lemma {:induction false} OneOrder(p: seq<Place>, q: seq<Place>)
    requires PlacesInOrder(p) && PlacesInOrder(q) && forall x :: x in p <==> x in q
    ensures p == q
  {
    assert q != [] ==> q[0] in q;
    if p != [] {
      assert p[|p| - 1] in p;
      if q != [] {
        assert q[|q| - 1] in q;
        SameLast(p, q);
        var pf, qf := p[..|p| - 1], q[..|q| - 1];
        forall x ensures x in pf <==> x in qf { FrontWithoutLast(p, x); FrontWithoutLast(q, x); }
        OneOrder(pf, qf);
        assert p == pf + [p[|p| - 1]] && q == qf + [q[|q| - 1]];
      }
    }
  }

  lemma PlacesOfRanking(arms: seq<Arm>, all: seq<Item>, x: Place)
    requires IsRanking(arms, all)
    ensures x in Places(all) <==> HitBy(arms, x.0) && x.1 == Score(arms, x.0)
  {
    FusionIsScored(arms, x.0);
    if i :| 0 <= i < |all| && Places(all)[i] == x { assert all[i] in all; }
    if HitBy(arms, x.0) && x.1 == Score(arms, x.0) {
      var i :| 0 <= i < |all| && all[i] == Fusion(arms, x.0).value;
      assert Places(all)[i] == x;
    }
  }

  lemma OrderedPlaces(s: seq<Item>)
    requires InOrder(s)
    ensures PlacesInOrder(Places(s))
  {
    forall i, j | 0 <= i < j < |s| ensures PlaceBefore(Places(s)[i], Places(s)[j]) { assert Before(s[i], s[j]); }
  }

  lemma SamePlaces(arms: seq<Arm>, arms': seq<Arm>, all: seq<Item>, all': seq<Item>)
    requires multiset(arms) == multiset(arms') && IsRanking(arms, all) && IsRanking(arms', all')
    ensures Places(all) == Places(all')
  {
    forall x ensures x in Places(all) <==> x in Places(all') {
      PlacesOfRanking(arms, all, x);
      PlacesOfRanking(arms', all', x);
      ScoreOfPermuted(arms, arms', x.0);
      if HitBy(arms, x.0) { PermutedHits(arms, arms', x.0); }
      if HitBy(arms', x.0) { PermutedHits(arms', arms, x.0); }
    }
    OrderedPlaces(all);
    OrderedPlaces(all');
    OneOrder(Places(all), Places(all'));
  }

  lemma PlacesOfTop(all: seq<Item>, limit: nat)
    ensures Places(Take(all, limit)) == Take(Places(all), limit)
  {
  }

  /** The order of the arms does not matter: the same documents come out with the same scores in the same order. */
  lemma PermutedArmsRankAlike(arms: seq<Arm>, arms': seq<Arm>, limit: nat, r: seq<Item>, r': seq<Item>)
    requires multiset(arms) == multiset(arms') && IsFusion(arms, limit, r) && IsFusion(arms', limit, r')
    ensures Places(r) == Places(r')
  {
    var all :| TopOf(arms, limit, r, all);
    var all' :| TopOf(arms', limit, r', all');
    SamePlaces(arms, arms', all, all');
    PlacesOfTop(all, limit);
    PlacesOfTop(all', limit);
  }
}
