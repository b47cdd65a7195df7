/** Deterministic round-robin selection over strata, each queue ordered by content hash. */
module StratifiedPick {
  import opened Sorting
  import opened Sums

  /** Only the stratum (ordered by its key hash) and the content hash of a row matter here. */
  datatype Row = Row(id: nat, stratum: nat, hash: nat)

  // ---------------------------------------------------------------- sorting by hash

  function HashOf(r: Row): Key {
    (r.hash, 0)
  }

  /** By hash, rows of equal hashes in the order given. */
  function Sort(rows: seq<Row>): seq<Row> {
    StableSort(rows, HashOf)
  }

  // ---------------------------------------------------------------- strata

  function Of(rows: seq<Row>, s: nat): seq<Row> {
    if rows == [] then []
    else Of(rows[..|rows| - 1], s) + if rows[|rows| - 1].stratum == s then [rows[|rows| - 1]] else []
  }

  function Strata(rows: seq<Row>): set<nat> {
    set i | 0 <= i < |rows| :: rows[i].stratum
  }

  /** The hash-ordered queue of a stratum. */
  function Queue(rows: seq<Row>, s: nat): seq<Row> {
    Sort(Of(rows, s))
  }

  lemma OfAppend(rows: seq<Row>, r: Row, s: nat)
    ensures Of(rows + [r], s) == Of(rows, s) + if r.stratum == s then [r] else []
  {
    assert (rows + [r])[..|rows|] == rows;
  }

  lemma StrataAppend(rows: seq<Row>, r: Row)
    ensures Strata(rows + [r]) == Strata(rows) + {r.stratum}
  {
    assert (rows + [r])[|rows|] == r;
    forall s | s in Strata(rows) ensures s in Strata(rows + [r]) {
      var i :| 0 <= i < |rows| && rows[i].stratum == s;
      assert (rows + [r])[i].stratum == s;
    }
  }

  lemma {:induction false} OfMembers(rows: seq<Row>, s: nat, r: Row)
    ensures multiset(Of(rows, s))[r] == if r.stratum == s then multiset(rows)[r] else 0
  {
    if rows != [] {
      OfMembers(rows[..|rows| - 1], s, r);
      assert rows == rows[..|rows| - 1] + [rows[|rows| - 1]];
    }
  }

  lemma {:induction false} OfOutside(rows: seq<Row>, s: nat)
    requires s !in Strata(rows)
    ensures Of(rows, s) == []
  {
    if rows != [] {
      var front := rows[..|rows| - 1];
      assert rows == front + [rows[|rows| - 1]];
      StrataAppend(front, rows[|rows| - 1]);
      OfOutside(front, s);
    }
  }

  // ---------------------------------------------------------------- what a selection owes each stratum

  /** The chosen rows of a stratum are the first ones of its queue. */
  predicate PrefixOf(chosen: seq<Row>, rows: seq<Row>, s: nat) {
    Of(chosen, s) <= Queue(rows, s)
  }

  predicate Exhausted(chosen: seq<Row>, rows: seq<Row>, s: nat) {
    Of(chosen, s) == Queue(rows, s)
  }

  /** No stratum is more than one pick ahead of another that still has rows. */
  predicate FairTo(chosen: seq<Row>, rows: seq<Row>, s: nat, t: nat) {
    |Of(chosen, s)| <= |Of(chosen, t)| + 1 || Exhausted(chosen, rows, t)
  }

  /** In the current round a stratum has had `turn` picks, or all it has. */
  predicate Served(chosen: seq<Row>, rows: seq<Row>, s: nat, turn: nat) {
    && PrefixOf(chosen, rows, s)
    && |Of(chosen, s)| == if turn <= |Queue(rows, s)| then turn else |Queue(rows, s)|
  }

  /** Prefixes of every queue use no row more often than it occurs. */
  lemma PrefixesAreDistinctRows(chosen: seq<Row>, rows: seq<Row>)
    requires forall s :: PrefixOf(chosen, rows, s)
    ensures multiset(chosen) <= multiset(rows)
  {
    forall r: Row ensures multiset(chosen)[r] <= multiset(rows)[r] {
      var s := r.stratum;
      assert PrefixOf(chosen, rows, s);
      var q, c := Queue(rows, s), Of(chosen, s);
      assert q == c + q[|c|..];
      OfMembers(chosen, s, r);
      OfMembers(rows, s, r);
      StableSortSorts(Of(rows, s), HashOf);
    }
  }

  /** If every queue is used up, so are the rows. */
  lemma AllExhausted(chosen: seq<Row>, rows: seq<Row>)
    requires forall s :: Exhausted(chosen, rows, s)
    ensures |chosen| == |rows|
  {
    assert multiset(chosen) == multiset(rows) by {
      forall r: Row ensures multiset(chosen)[r] == multiset(rows)[r] {
        assert Exhausted(chosen, rows, r.stratum);
        OfMembers(chosen, r.stratum, r);
        OfMembers(rows, r.stratum, r);
        StableSortSorts(Of(rows, r.stratum), HashOf);
      }
    }
    assert |multiset(chosen)| == |chosen| && |multiset(rows)| == |rows|;
  }

  // ---------------------------------------------------------------- the loops

  method Group(rows: seq<Row>) returns (groups: map<nat, seq<Row>>)
    ensures groups.Keys == Strata(rows)
    ensures forall s | s in groups :: groups[s] == Queue(rows, s)
  {
    groups := map[];
    for i := 0 to |rows|
      invariant groups.Keys == Strata(rows[..i])
      invariant forall s | s in groups :: groups[s] == Of(rows[..i], s)
    {
      var row := rows[i];
      assert rows[..i + 1] == rows[..i] + [row];
      StrataAppend(rows[..i], row);
      forall s { OfAppend(rows[..i], row, s); }
      if row.stratum !in groups { OfOutside(rows[..i], row.stratum); }
      groups := groups[row.stratum := (if row.stratum in groups then groups[row.stratum] else []) + [row]];
    }
    assert rows[..|rows|] == rows;
    var rest := groups.Keys;
    while rest != {}
      invariant rest <= groups.Keys == Strata(rows)
      invariant forall s | s in groups :: groups[s] == if s in rest then Of(rows, s) else Queue(rows, s)
      decreases |rest|
    {
      var s :| s in rest;
      groups := groups[s := Sort(groups[s])];
      rest := rest - {s};
    }
  }

  predicate Increasing(keys: seq<nat>) {
    forall i, j | 0 <= i < j < |keys| :: keys[i] < keys[j]
  }

  /** The keys are the strata, in order. */
  ghost predicate KeysOf(keys: seq<nat>, strata: set<nat>) {
    Increasing(keys) && forall s :: s in keys <==> s in strata
  }

  predicate AllBelow(keys: seq<nat>, rest: set<nat>) {
    forall s, t | s in keys && t in rest :: s < t
  }

  method SortedKeys(strata: set<nat>) returns (keys: seq<nat>)
    ensures KeysOf(keys, strata)
  {
    keys := [];
    var rest := strata;
    while rest != {}
      invariant rest <= strata && KeysOf(keys, strata - rest) && AllBelow(keys, rest)
      decreases |rest|
    {
      LeastExists(rest);
      var least :| least in rest && IsLeast(least, rest);
      KeysAppend(keys, strata, rest, least);
      keys := keys + [least];
      rest := rest - {least};
    }
    assert strata - rest == strata;
  }

  lemma KeysAppend(keys: seq<nat>, strata: set<nat>, rest: set<nat>, least: nat)
    requires rest <= strata && KeysOf(keys, strata - rest) && AllBelow(keys, rest) && IsLeast(least, rest)
    ensures KeysOf(keys + [least], strata - (rest - {least})) && AllBelow(keys + [least], rest - {least})
  {
    var longer := keys + [least];
    forall i, j | 0 <= i < j < |longer| ensures longer[i] < longer[j] {
      assert longer[i] == keys[i] && keys[i] in keys;
    }
    forall s ensures s in longer <==> s in strata - (rest - {least}) {
      if s in keys { assert s in strata - rest; }
    }
  }

  /** What is left in the groups while choosing. */
  predicate LeftIn(groups: map<nat, seq<Row>>, chosen: seq<Row>, rows: seq<Row>, s: nat) {
    s in groups && Of(chosen, s) + groups[s] == Queue(rows, s)
  }

  predicate NoneOf(chosen: seq<Row>, s: nat) {
    Of(chosen, s) == []
  }

  ghost predicate Choosing(groups: map<nat, seq<Row>>, chosen: seq<Row>, rows: seq<Row>) {
    && groups.Keys == Strata(rows)
    && (forall s | s in Strata(rows) :: LeftIn(groups, chosen, rows, s))
    && (forall s | s !in Strata(rows) :: NoneOf(chosen, s))
  }

  lemma HeadBelongs(groups: map<nat, seq<Row>>, chosen: seq<Row>, rows: seq<Row>, s: nat)
    requires LeftIn(groups, chosen, rows, s) && groups[s] != []
    ensures groups[s][0].stratum == s
  {
    var row := groups[s][0];
    assert Queue(rows, s)[|Of(chosen, s)|] == row;
    StableSortSorts(Of(rows, s), HashOf);
    assert row in multiset(Queue(rows, s));
    OfMembers(rows, s, row);
  }

  lemma TakeFrom(groups: map<nat, seq<Row>>, chosen: seq<Row>, rows: seq<Row>, s: nat, t: nat)
    requires LeftIn(groups, chosen, rows, s) && groups[s] != [] && LeftIn(groups, chosen, rows, t)
    ensures LeftIn(groups[s := groups[s][1..]], chosen + [groups[s][0]], rows, t)
  {
    HeadBelongs(groups, chosen, rows, s);
    OfAppend(chosen, groups[s][0], t);
    if t == s { assert Of(chosen, s) + [groups[s][0]] + groups[s][1..] == Of(chosen, s) + groups[s]; }
  }

  lemma TakeLeaves(groups: map<nat, seq<Row>>, chosen: seq<Row>, rows: seq<Row>, s: nat)
    requires Choosing(groups, chosen, rows) && s in groups && groups[s] != []
    ensures forall t | t in Strata(rows) :: LeftIn(groups[s := groups[s][1..]], chosen + [groups[s][0]], rows, t)
  {
    forall t | t in Strata(rows) ensures LeftIn(groups[s := groups[s][1..]], chosen + [groups[s][0]], rows, t) {
      assert LeftIn(groups, chosen, rows, t) && LeftIn(groups, chosen, rows, s);
      TakeFrom(groups, chosen, rows, s, t);
    }
  }

  /** The row taken goes to its own stratum. */
  lemma TakeAdds(chosen: seq<Row>, row: Row)
    ensures Of(chosen + [row], row.stratum) == Of(chosen, row.stratum) + [row]
    ensures forall t | t != row.stratum :: Of(chosen + [row], t) == Of(chosen, t)
  {
    forall t ensures Of(chosen + [row], t) == Of(chosen, t) + if t == row.stratum then [row] else [] { OfAppend(chosen, row, t); }
  }

  lemma TakeOne(groups: map<nat, seq<Row>>, chosen: seq<Row>, rows: seq<Row>, s: nat)
    requires Choosing(groups, chosen, rows) && s in groups && groups[s] != []
    ensures Choosing(groups[s := groups[s][1..]], chosen + [groups[s][0]], rows)
    ensures groups[s][0].stratum == s
  {
    var row := groups[s][0];
    assert LeftIn(groups, chosen, rows, s);
    HeadBelongs(groups, chosen, rows, s);
    TakeLeaves(groups, chosen, rows, s);
    forall t | t !in Strata(rows) ensures NoneOf(chosen + [row], t) {
      assert NoneOf(chosen, t);
      OfAppend(chosen, row, t);
    }
  }

  lemma ServedNext(groups: map<nat, seq<Row>>, chosen: seq<Row>, rows: seq<Row>, s: nat, turn: nat, chosen': seq<Row>)
    requires LeftIn(groups, chosen, rows, s) && groups[s] != [] && Served(chosen, rows, s, turn)
    requires Of(chosen', s) == Of(chosen, s) + [groups[s][0]]
    ensures Served(chosen', rows, s, turn + 1)
  {
    assert Queue(rows, s) == Of(chosen', s) + groups[s][1..];
  }

  lemma NothingLeft(groups: map<nat, seq<Row>>, chosen: seq<Row>, rows: seq<Row>, s: nat, turn: nat)
    requires LeftIn(groups, chosen, rows, s) && groups[s] == []
    requires Served(chosen, rows, s, turn)
    ensures Served(chosen, rows, s, turn + 1) && Exhausted(chosen, rows, s)
  {
  }

  function TurnAt(j: nat, i: nat, turn: nat): nat {
    if j < i then turn + 1 else turn
  }

  /** The first i keys have been served in this round, the others not yet. */
  ghost predicate MidRound(keys: seq<nat>, chosen: seq<Row>, rows: seq<Row>, i: nat, turn: nat) {
    forall j | 0 <= j < |keys| :: Served(chosen, rows, keys[j], TurnAt(j, i, turn))
  }

  lemma {:induction false} ServeKey(groups: map<nat, seq<Row>>, keys: seq<nat>, chosen: seq<Row>, rows: seq<Row>, i: nat, turn: nat)
    requires KeysOf(keys, Strata(rows)) && Choosing(groups, chosen, rows) && MidRound(keys, chosen, rows, i, turn) && i < |keys|
    requires keys[i] in groups
    ensures groups[keys[i]] == [] ==> MidRound(keys, chosen, rows, i + 1, turn) && Exhausted(chosen, rows, keys[i])
    ensures groups[keys[i]] != [] ==>
              && Choosing(groups[keys[i] := groups[keys[i]][1..]], chosen + [groups[keys[i]][0]], rows)
              && MidRound(keys, chosen + [groups[keys[i]][0]], rows, i + 1, turn)
  {
    var key := keys[i];
    assert Served(chosen, rows, key, turn);
    assert LeftIn(groups, chosen, rows, key);
    if groups[key] == [] {
      NothingLeft(groups, chosen, rows, key, turn);
    } else {
      var chosen' := chosen + [groups[key][0]];
      TakeOne(groups, chosen, rows, key);
      TakeAdds(chosen, groups[key][0]);
      ServedNext(groups, chosen, rows, key, turn, chosen');
      forall j | 0 <= j < |keys| ensures Served(chosen', rows, keys[j], TurnAt(j, i + 1, turn)) {
        assert Served(chosen, rows, keys[j], TurnAt(j, i, turn));
        if j != i { assert keys[j] != key; }
      }
    }
  }

  ghost predicate UsedUp(keys: seq<nat>, chosen: seq<Row>, rows: seq<Row>, i: nat) {
    forall j | 0 <= j < i && j < |keys| :: Exhausted(chosen, rows, keys[j])
  }

  /** After the first i keys of a round: what has been chosen and what that says about the keys served. */
  ghost predicate Serving(rows: seq<Row>, keys: seq<nat>, groups: map<nat, seq<Row>>, chosen: seq<Row>, i: nat, turn: nat, progressed: bool) {
    && Choosing(groups, chosen, rows) && MidRound(keys, chosen, rows, i, turn)
    && (!progressed ==> UsedUp(keys, chosen, rows, i))
  }

  /** Serving one key. */
  lemma ServingNext(rows: seq<Row>, keys: seq<nat>, groups: map<nat, seq<Row>>, chosen: seq<Row>, i: nat, turn: nat, progressed: bool)
    requires KeysOf(keys, Strata(rows)) && Serving(rows, keys, groups, chosen, i, turn, progressed) && i < |keys|
    ensures keys[i] in groups
    ensures groups[keys[i]] == [] ==> Serving(rows, keys, groups, chosen, i + 1, turn, progressed)
    ensures groups[keys[i]] != [] ==>
      Serving(rows, keys, groups[keys[i] := groups[keys[i]][1..]], chosen + [groups[keys[i]][0]], i + 1, turn, true)
  {
    assert keys[i] in keys;
    ServeKey(groups, keys, chosen, rows, i, turn);
  }

  /** One pass over the keys: everyone who still has rows is served once, until `count` rows are chosen.
      `reached` tells how far the pass came. */
  method Round(rows: seq<Row>, keys: seq<nat>, groups: map<nat, seq<Row>>, chosen: seq<Row>, count: nat, ghost turn: nat)
      returns (groups': map<nat, seq<Row>>, chosen': seq<Row>, progressed: bool, ghost reached: nat)
    requires KeysOf(keys, Strata(rows)) && Choosing(groups, chosen, rows) && |chosen| < count
    requires MidRound(keys, chosen, rows, 0, turn)
    ensures Choosing(groups', chosen', rows) && |chosen| <= |chosen'| <= count
    ensures progressed <==> |chosen| < |chosen'|
    ensures MidRound(keys, chosen', rows, reached, turn)
    ensures |chosen'| < count ==> reached == |keys|
    ensures !progressed ==> UsedUp(keys, chosen', rows, |keys|)
  {
    groups', chosen', progressed := groups, chosen, false;
    var i := 0;
    while i < |keys| && |chosen'| < count
      invariant i <= |keys| && |chosen| <= |chosen'| <= count
      invariant progressed <==> |chosen| < |chosen'|
      invariant Serving(rows, keys, groups', chosen', i, turn, progressed)
    {
      ServingNext(rows, keys, groups', chosen', i, turn, progressed);
      var key := keys[i];
      if groups'[key] != [] {
        chosen' := chosen' + [groups'[key][0]];
        groups' := groups'[key := groups'[key][1..]];
        progressed := true;
      }
      i := i + 1;
    }
    reached := i;
  }

  lemma NextTurn(keys: seq<nat>, chosen: seq<Row>, rows: seq<Row>, turn: nat)
    requires MidRound(keys, chosen, rows, |keys|, turn)
    ensures MidRound(keys, chosen, rows, 0, turn + 1)
  {
    forall j | 0 <= j < |keys| ensures Served(chosen, rows, keys[j], turn + 1) {
      assert Served(chosen, rows, keys[j], TurnAt(j, |keys|, turn));
    }
  }

  lemma FairMidRound(keys: seq<nat>, chosen: seq<Row>, rows: seq<Row>, i: nat, turn: nat, s: nat, t: nat)
    requires KeysOf(keys, Strata(rows)) && MidRound(keys, chosen, rows, i, turn)
    requires s in Strata(rows) && t in Strata(rows)
    ensures FairTo(chosen, rows, s, t)
  {
    assert s in keys && t in keys;
    var a :| 0 <= a < |keys| && keys[a] == s;
    var b :| 0 <= b < |keys| && keys[b] == t;
    assert Served(chosen, rows, keys[a], TurnAt(a, i, turn));
    assert Served(chosen, rows, keys[b], TurnAt(b, i, turn));
  }

  lemma ChoosingPrefixes(groups: map<nat, seq<Row>>, chosen: seq<Row>, rows: seq<Row>, s: nat)
    requires Choosing(groups, chosen, rows)
    ensures PrefixOf(chosen, rows, s)
  {
    if s in Strata(rows) { assert LeftIn(groups, chosen, rows, s); } else { assert NoneOf(chosen, s); }
  }

  lemma NoRowsLeft(groups: map<nat, seq<Row>>, keys: seq<nat>, chosen: seq<Row>, rows: seq<Row>)
    requires Choosing(groups, chosen, rows) && KeysOf(keys, Strata(rows)) && UsedUp(keys, chosen, rows, |keys|)
    ensures |chosen| == |rows|
  {
    forall s ensures Exhausted(chosen, rows, s) {
      if s in Strata(rows) {
        assert s in keys;
        var j :| 0 <= j < |keys| && keys[j] == s;
        assert Exhausted(chosen, rows, keys[j]);
      } else {
        OfOutside(rows, s);
        assert NoneOf(chosen, s);
      }
    }
    AllExhausted(chosen, rows);
  }

  /** The round-robin loop; `progressed` is false only when the rows run out. */
  method Choose(rows: seq<Row>, keys: seq<nat>, groups: map<nat, seq<Row>>, count: nat)
      returns (chosen: seq<Row>, ghost turn: nat, ghost reached: nat)
    requires KeysOf(keys, Strata(rows)) && Choosing(groups, [], rows)
    ensures |chosen| == count || (|chosen| < count && |chosen| == |rows|)
    ensures exists left :: Choosing(left, chosen, rows)
    ensures MidRound(keys, chosen, rows, reached, turn)
  {
    var left := groups;
    chosen, turn, reached := [], 0, 0;
    forall j | 0 <= j < |keys| ensures Served([], rows, keys[j], 0) {}
    while |chosen| < count
      invariant Choosing(left, chosen, rows) && |chosen| <= count
      invariant MidRound(keys, chosen, rows, reached, turn)
      invariant |chosen| < count ==> reached == 0
      decreases count - |chosen|
    {
      var progressed;
      left, chosen, progressed, reached := Round(rows, keys, left, chosen, count, turn);
      if !progressed {
        NoRowsLeft(left, keys, chosen, rows);
        return;
      }
      if |chosen| < count {
        NextTurn(keys, chosen, rows, turn);
        turn, reached := turn + 1, 0;
      }
    }
  }

  lemma EverythingLeft(groups: map<nat, seq<Row>>, rows: seq<Row>)
    requires groups.Keys == Strata(rows) && forall s | s in groups :: groups[s] == Queue(rows, s)
    ensures Choosing(groups, [], rows)
  {
    forall s | s in Strata(rows) ensures LeftIn(groups, [], rows, s) {
      assert Of([], s) + groups[s] == groups[s];
    }
  }

  /** Asking for no fewer rows than there are returns all of them by hash. Otherwise exactly `count` distinct rows are
      chosen: of each stratum the first ones of its queue, no stratum more than one ahead of another that has rows left.
      The shortfall error after the loop is unreachable. */
  /** By content hash. */
  predicate HashOrdered(s: seq<Row>) {
    forall i, j | 0 <= i < j < |s| :: s[i].hash <= s[j].hash
  }

  /** What was chosen of a stratum: in hash order, and nothing left of the stratum has a smaller hash. */
  ghost predicate SmallestChosen(r: seq<Row>, rows: seq<Row>) {
    && (forall i, j | 0 <= i < j < |r| && r[i].stratum == r[j].stratum :: r[i].hash <= r[j].hash)
    && (forall x, y | x in r && y in rows && x.stratum == y.stratum && multiset(r)[y] < multiset(rows)[y] :: x.hash <= y.hash)
  }

  /** No stratum is more than one pick ahead of one that has rows left. */
  ghost predicate Fair(r: seq<Row>, rows: seq<Row>) {
    forall s, t | s in Strata(rows) && t in Strata(rows) :: |Of(r, s)| <= |Of(r, t)| + 1 || |Of(r, t)| == |Of(rows, t)|
  }

  lemma QueueIsOrdered(rows: seq<Row>, s: nat)
    ensures HashOrdered(Queue(rows, s)) && multiset(Queue(rows, s)) == multiset(Of(rows, s)) && |Queue(rows, s)| == |Of(rows, s)|
  {
    StableSortSorts(Of(rows, s), HashOf);
    assert forall i, j | 0 <= i < j < |Queue(rows, s)| :: AtMost(HashOf(Queue(rows, s)[i]), HashOf(Queue(rows, s)[j]));
  }

  lemma InStratum(r: seq<Row>, x: Row)
    requires x in r
    ensures x in Of(r, x.stratum)
  {
    OfMembers(r, x.stratum, x);
    assert multiset(r)[x] > 0;
    assert multiset(Of(r, x.stratum))[x] > 0;
  }

  lemma PrefixOrdered(s: seq<Row>, p: seq<Row>)
    requires p <= s && HashOrdered(s)
    ensures HashOrdered(p)
  {
    assert forall k | 0 <= k < |p| :: p[k] == s[k];
  }

  lemma {:induction false} OrderedWithin(r: seq<Row>, s: nat, i: nat, j: nat)
    requires HashOrdered(Of(r, s)) && i < j < |r| && r[i].stratum == s && r[j].stratum == s
    ensures r[i].hash <= r[j].hash
  {
    var n := |r| - 1;
    var front, all := Of(r[..n], s), Of(r, s);
    PrefixOrdered(all, front);
    if j < n {
      OrderedWithin(r[..n], s, i, j);
    } else {
      assert r[..n][i] == r[i];
      InStratum(r[..n], r[i]);
      var k :| 0 <= k < |front| && front[k] == r[i];
      assert all == front + [r[n]];
      assert all[k] == r[i] && all[|front|] == r[n];
    }
  }

  /** What occurs more often than in a prefix occurs behind it. */
  lemma BehindPrefix(q: seq<Row>, p: seq<Row>, y: Row) returns (j: nat)
    requires p <= q && multiset(p)[y] < multiset(q)[y]
    ensures |p| <= j < |q| && q[j] == y
  {
    var rest := q[|p|..];
    assert q == p + rest;
    assert multiset(rest)[y] > 0;
    assert y in rest;
    var i :| 0 <= i < |rest| && rest[i] == y;
    j := |p| + i;
  }

  lemma LeftIsLarger(r: seq<Row>, rows: seq<Row>, x: Row, y: Row)
    requires PrefixOf(r, rows, x.stratum) && x in r && y in rows && x.stratum == y.stratum && multiset(r)[y] < multiset(rows)[y]
    ensures x.hash <= y.hash
  {
    var s := x.stratum;
    var q, p := Queue(rows, s), Of(r, s);
    QueueIsOrdered(rows, s);
    InStratum(r, x);
    OfMembers(r, s, y);
    OfMembers(rows, s, y);
    var j := BehindPrefix(q, p, y);
    var i :| 0 <= i < |p| && p[i] == x;
    assert q[i] == x;
  }

  lemma PrefixesAreSmallest(r: seq<Row>, rows: seq<Row>)
    requires forall s :: PrefixOf(r, rows, s)
    ensures SmallestChosen(r, rows)
  {
    forall i, j | 0 <= i < j < |r| && r[i].stratum == r[j].stratum ensures r[i].hash <= r[j].hash {
      var s := r[i].stratum;
      assert PrefixOf(r, rows, s);
      QueueIsOrdered(rows, s);
      assert HashOrdered(Of(r, s)) by { assert forall k | 0 <= k < |Of(r, s)| :: Of(r, s)[k] == Queue(rows, s)[k]; }
      OrderedWithin(r, s, i, j);
    }
    forall x, y | x in r && y in rows && x.stratum == y.stratum && multiset(r)[y] < multiset(rows)[y] ensures x.hash <= y.hash {
      assert PrefixOf(r, rows, x.stratum);
      LeftIsLarger(r, rows, x, y);
    }
  }

  lemma FairWhenFairTo(r: seq<Row>, rows: seq<Row>)
    requires forall s, t | s in Strata(rows) && t in Strata(rows) :: FairTo(r, rows, s, t)
    ensures Fair(r, rows)
  {
    forall s, t | s in Strata(rows) && t in Strata(rows) ensures |Of(r, s)| <= |Of(r, t)| + 1 || |Of(r, t)| == |Of(rows, t)| {
      assert FairTo(r, rows, s, t);
      QueueIsOrdered(rows, t);
    }
  }

  lemma SortIsOrdered(rows: seq<Row>)
    ensures HashOrdered(Sort(rows)) && multiset(Sort(rows)) == multiset(rows) && |Sort(rows)| == |rows|
  {
    StableSortSorts(rows, HashOf);
    assert forall i, j | 0 <= i < j < |Sort(rows)| :: AtMost(HashOf(Sort(rows)[i]), HashOf(Sort(rows)[j]));
  }

  method Pick(rows: seq<Row>, count: nat) returns (r: seq<Row>)
    ensures |r| == if count < |rows| then count else |rows|
    ensures multiset(r) <= multiset(rows)
    ensures count >= |rows| ==> r == Sort(rows) && HashOrdered(r)
    ensures count < |rows| ==> forall s :: PrefixOf(r, rows, s)
    ensures count < |rows| ==> SmallestChosen(r, rows)
    ensures count < |rows| ==> Fair(r, rows)
  {
    if count >= |rows| {
      SortIsOrdered(rows);
      return Sort(rows);
    }
    var groups := Group(rows);
    var keys := SortedKeys(groups.Keys);
    EverythingLeft(groups, rows);
    ghost var turn, reached;
    r, turn, reached := Choose(rows, keys, groups, count);
    assert |r| == count;
    ghost var left :| Choosing(left, r, rows);
    forall s ensures PrefixOf(r, rows, s) { ChoosingPrefixes(left, r, rows, s); }
    PrefixesAreDistinctRows(r, rows);
    forall s, t | s in Strata(rows) && t in Strata(rows) ensures FairTo(r, rows, s, t) {
      FairMidRound(keys, r, rows, reached, turn, s, t);
    }
    FairWhenFairTo(r, rows);
    PrefixesAreSmallest(r, rows);
  }
}
