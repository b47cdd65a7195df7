/** A small run of the proxy from fresh files, the stage for concrete instances: what is granted, refused and tripped. */
module BudgetScenario {
  import opened Options
  import opened BudgetSpec
  import opened BudgetSystem

  const UNAUTHORIZED := ProviderReturned(401)

  /** Settings under which one request is affordable and another is not. */
  ghost predicate Scenario(x: Settings, cheap: Item, dear: Item) {
    && x.Valid() && x.initialSpend <= x.guard.Effective()
    && Asks(x, cheap) && Asks(x, dear)
    && x.initialSpend + cheap.reservation.cost <= x.guard.Effective()
    && cheap.reservation.cost <= ScopeLimit(x.guard, cheap.scope)
    && cheap.Tokens() <= x.tpmLimit
    && x.initialSpend + dear.reservation.cost > x.guard.Effective()
  }

  ghost predicate Asks(x: Settings, item: Item) {
    && item.startedAt == 0.0
    && (exists month :: (item.scope, item.period) == ScopeFor(x, item.endpoint, month))
    && item == ItemFor(x, item.endpoint, item.model, item.scope, item.period,
                       item.reservation.inputTokens, item.reservation.outputTokens, 0.0)
  }

  function Stage(x: Settings, state: State, owned: set<RequestId>, refused: multiset<Reason>,
                 granted: map<RequestId, Item>): System {
    System(FreshLedger(x), state, Proxy(x, FreshLedger(x), state, [], owned, refused), 0.0,
           History(granted, map[], {}, [], map[]))
  }

  function Nothing(x: Settings): System {
    System(FreshLedger(x), NoState, Down, 0.0, History(map[], map[], {}, [], map[]))
  }

  function OneInFlight(item: Item): State {
    State(false, None, map[0 := item], [])
  }

  /** One dollar a token, a ceiling of ten dollars. */
  lemma SampleSettings() returns (x: Settings)
    ensures x.Valid() && x.phase == Backfill && x.initialSpend == 0.0 && x.tpmLimit == 1000
    ensures x.guard.Effective() == 10.0 == x.guard.backfillLimit && x.guard.hindsightPrice == Price(1000000.0, 1000000.0)
  {
    var price := Price(1000000.0, 1000000.0);
    x := Settings(Guard(10.0, 0.0, 10.0, 10.0, 10.0, price, price), Backfill, 30, 1000, 0.0);
  }

  lemma SampleItem(x: Settings, tokens: nat) returns (item: Item)
    requires x.phase == Backfill && x.guard.hindsightPrice == Price(1000000.0, 1000000.0)
    ensures Asks(x, item) && item.reservation.cost == tokens as real && item.Tokens() == tokens && item.scope == HindsightBackfill
  {
    assert (HindsightBackfill, AllTime) == ScopeFor(x, Chat, 0);
    assert TokenCost(Price(1000000.0, 1000000.0), tokens, 0) == tokens as real;
    item := ItemFor(x, Chat, Hindsight, HindsightBackfill, AllTime, tokens, 0, 0.0);
  }

  /** The situation of the next theorem arises: under these settings one token is affordable and a hundred are not. */
  lemma ScenarioArises() returns (x: Settings, cheap: Item, dear: Item)
    ensures Scenario(x, cheap, dear)
  {
    x := SampleSettings();
    cheap := SampleItem(x, 1);
    dear := SampleItem(x, 100);
  }

  lemma EmptyFilesGrant(s: Settings, l: Ledger, st: State, item: Item)
    requires !st.circuitOpen && st.inFlight == map[] && l.calls == []
    requires l.spent + item.reservation.cost <= s.guard.Effective()
    requires item.reservation.cost <= ScopeLimit(s.guard, item.scope)
    requires s.rpmLimit > 0 && item.Tokens() <= s.tpmLimit
    ensures Decide(s, l, st, item) == Grant
  {
    assert RecentItems(st.inFlight, item.startedAt) == {};
  }

  lemma TooDearIsRefused(s: Settings, l: Ledger, st: State, item: Item)
    requires !st.circuitOpen && l.spent + item.reservation.cost > s.guard.Effective()
    requires forall id | id in st.inFlight :: st.inFlight[id].reservation.cost >= 0.0
    ensures Decide(s, l, st, item) == Refuse(ProviderTotalExceeded)
  {
    Sums.SumMapNonNegative(st.inFlight, PendingWeight(Everything));
  }

  lemma Started(x: Settings, cheap: Item, dear: Item)
    requires Scenario(x, cheap, dear)
    ensures Run(Nothing(x), [Launch(x)], Stage(x, NoState, {}, multiset{}, map[]))
  {
    RunOne(Nothing(x), Launch(x));
  }

  lemma Granted(x: Settings, cheap: Item, dear: Item)
    requires Scenario(x, cheap, dear)
    ensures Run(Stage(x, NoState, {}, multiset{}, map[]), [Reserve(0, cheap), Flush],
                Stage(x, OneInFlight(cheap), {0}, multiset{}, map[0 := cheap]))
  {
    EmptyFilesGrant(x, FreshLedger(x), NoState, cheap);
    var s := Stage(x, NoState, {}, multiset{}, map[]);
    var e := Reserve(0, cheap);
    assert Enabled(s, e);
    var t := Step(s, e);
    assert t.process.state == OneInFlight(cheap) && t.process.owned == {0} && [StateWrite][1..] == [];
    RunOne(s, e);
    RunAlso(s, [e], t, Flush);
    assert [e] + [Flush] == [e, Flush];
  }

  /** A request granted on fresh files and sent. */
  lemma OneSent(x: Settings, cheap: Item, dear: Item) returns (s: System)
    requires Scenario(x, cheap, dear)
    ensures Reachable(s) && Idle(s) && 0 in s.process.owned && 0 in s.history.sent
  {
    var up, held := Stage(x, NoState, {}, multiset{}, map[]), Stage(x, OneInFlight(cheap), {0}, multiset{}, map[0 := cheap]);
    assert Initial(Nothing(x));
    Started(x, cheap, dear);
    Granted(x, cheap, dear);
    RunConcat(Nothing(x), [Launch(x)], up, [Reserve(0, cheap), Flush], held);
    RunAlso(Nothing(x), [Launch(x)] + [Reserve(0, cheap), Flush], held, Send(0, 0.0));
    s := Step(held, Send(0, 0.0));
  }

  lemma RefusedOnMoney(x: Settings, dear: Item, st: State, owned: set<RequestId>, granted: map<RequestId, Item>)
    requires Asks(x, dear) && x.Valid() && x.initialSpend + dear.reservation.cost > x.guard.Effective()
    requires !st.circuitOpen && 1 !in granted
    requires forall id | id in st.inFlight :: st.inFlight[id].reservation.cost >= 0.0
    ensures Run(Stage(x, st, owned, multiset{}, granted), [Reserve(1, dear)],
                Stage(x, st, owned, multiset{ProviderTotalExceeded}, granted))
  {
    var s := Stage(x, st, owned, multiset{}, granted);
    TooDearIsRefused(x, FreshLedger(x), st, dear);
    assert Enabled(s, Reserve(1, dear));
    assert s.process.refused + multiset{ProviderTotalExceeded} == multiset{ProviderTotalExceeded};
    RunOne(s, Reserve(1, dear));
  }

  /** What asking costs is not negative. */
  lemma AskedCost(x: Settings, item: Item)
    requires x.Valid() && Asks(x, item)
    ensures item.reservation.cost >= 0.0
  {
    NonNegativeCost(x, item.endpoint, item.model, item.scope, item.period,
                    item.reservation.inputTokens, item.reservation.outputTokens, 0.0);
  }
}
