/** The dollar ceilings in the terms of the configuration: sums by endpoint and period over the files, and the verdict on a
    request in the guard's own fields. */
module BudgetCeilings {
  import opened Options
  import opened Sums
  import opened BudgetSpec

  // ---------------------------------------------------------------- sums by endpoint and period

  function EmbeddingCost(calls: seq<Call>, month: nat): real {
    if calls == [] then 0.0
    else
      EmbeddingCost(Front(calls), month) +
      if Last(calls).endpoint == Embeddings && Last(calls).period == Month(month) then Last(calls).cost else 0.0
  }

  function ChatCost(calls: seq<Call>, period: Period): real {
    if calls == [] then 0.0
    else
      ChatCost(Front(calls), period) +
      if Last(calls).endpoint == Chat && Last(calls).period == period then Last(calls).cost else 0.0
  }

  function TotalCost(calls: seq<Call>): real {
    if calls == [] then 0.0 else TotalCost(Front(calls)) + Last(calls).cost
  }

  ghost function EmbeddingWeight(month: nat): (RequestId, Item) -> real {
    (id: RequestId, i: Item) => if i.endpoint == Embeddings && i.period == Month(month) then i.reservation.cost else 0.0
  }

  ghost function ChatWeight(period: Period): (RequestId, Item) -> real {
    (id: RequestId, i: Item) => if i.endpoint == Chat && i.period == period then i.reservation.cost else 0.0
  }

  ghost function TotalWeight(): (RequestId, Item) -> real {
    (id: RequestId, i: Item) => i.reservation.cost
  }

  ghost function EmbeddingHeld(m: map<RequestId, Item>, month: nat): real {
    SumMap(m, EmbeddingWeight(month))
  }

  ghost function ChatHeld(m: map<RequestId, Item>, period: Period): real {
    SumMap(m, ChatWeight(period))
  }

  ghost function TotalHeld(m: map<RequestId, Item>): real {
    SumMap(m, TotalWeight())
  }

  // ---------------------------------------------------------------- what the files' scopes mean

  /** Embeddings count against Qwen in a month, chat requests against one all-time total or a month. */
  predicate Tagged(endpoint: Endpoint, scope: Scope, period: Period) {
    match scope
    case QwenMonthly => endpoint == Embeddings && period.Month?
    case HindsightBackfill => endpoint == Chat && period == AllTime
    case HindsightMonthly => endpoint == Chat && period.Month?
  }

  predicate TaggedCalls(calls: seq<Call>) {
    forall i | 0 <= i < |calls| :: Tagged(calls[i].endpoint, calls[i].scope, calls[i].period)
  }

  predicate TaggedItems(m: map<RequestId, Item>) {
    forall id | id in m :: Tagged(m[id].endpoint, m[id].scope, m[id].period)
  }

  lemma {:induction false} ChargedByEndpoint(calls: seq<Call>, month: nat)
    requires TaggedCalls(calls)
    ensures Charged(calls, Only(QwenMonthly, Month(month))) == EmbeddingCost(calls, month)
    ensures Charged(calls, Only(HindsightMonthly, Month(month))) == ChatCost(calls, Month(month))
    ensures Charged(calls, Only(HindsightBackfill, AllTime)) == ChatCost(calls, AllTime)
    ensures Charged(calls, Everything) == TotalCost(calls)
  {
    if calls != [] {
      assert forall i | 0 <= i < |calls| - 1 :: Front(calls)[i] == calls[i];
      ChargedByEndpoint(Front(calls), month);
      assert Tagged(Last(calls).endpoint, Last(calls).scope, Last(calls).period);
    }
  }

  lemma HeldByEndpoint(m: map<RequestId, Item>, month: nat)
    requires TaggedItems(m)
    ensures Pending(m, Only(QwenMonthly, Month(month))) == EmbeddingHeld(m, month)
    ensures Pending(m, Only(HindsightMonthly, Month(month))) == ChatHeld(m, Month(month))
    ensures Pending(m, Only(HindsightBackfill, AllTime)) == ChatHeld(m, AllTime)
    ensures Pending(m, Everything) == TotalHeld(m)
  {
    SumMapCongruent(m, PendingWeight(Only(QwenMonthly, Month(month))), EmbeddingWeight(month));
    SumMapCongruent(m, PendingWeight(Only(HindsightMonthly, Month(month))), ChatWeight(Month(month)));
    SumMapCongruent(m, PendingWeight(Only(HindsightBackfill, AllTime)), ChatWeight(AllTime));
    SumMapCongruent(m, PendingWeight(Everything), TotalWeight());
  }

  // ---------------------------------------------------------------- the verdict on a request

  /** What a request costs at the token prices of its model. */
  function PriceOfRequest(g: Guard, model: Model, input: nat, output: nat): real {
    if model == Hindsight then (input as real * g.hindsightPrice.input + output as real * g.hindsightPrice.output) / 1000000.0
    else (input as real * g.qwenPrice.input + output as real * g.qwenPrice.output) / 1000000.0
  }

  /** All traffic, this request included, is above the provider's limit less the margin. */
  ghost predicate OverTotal(s: Settings, l: Ledger, st: State, cost: real) {
    l.spent + TotalHeld(st.inFlight) + cost > s.guard.totalLimit - s.guard.safetyMargin
  }

  /** What the request counts against, this request included, is above its own limit. */
  ghost predicate OverOwn(s: Settings, l: Ledger, st: State, endpoint: Endpoint, month: nat, cost: real) {
    if endpoint == Embeddings then
      EmbeddingCost(l.calls, month) + EmbeddingHeld(st.inFlight, month) + cost > s.guard.qwenLimit
    else if s.phase == Backfill then
      ChatCost(l.calls, AllTime) + ChatHeld(st.inFlight, AllTime) + cost > s.guard.backfillLimit
    else
      ChatCost(l.calls, Month(month)) + ChatHeld(st.inFlight, Month(month)) + cost > s.guard.monthlyLimit
  }

  /** The verdict follows from the circuit, the two sums and the token limit, in this order. */
  ghost predicate JudgedAs(v: Verdict, s: Settings, l: Ledger, st: State, endpoint: Endpoint, model: Model, input: nat, output: nat, month: nat) {
    var cost := PriceOfRequest(s.guard, model, input, output);
    if st.circuitOpen then
      v == Refuse(if st.reason.Some? then st.reason.value else Unexplained)
    else if OverTotal(s, l, st, cost) then
      v == Refuse(ProviderTotalExceeded)
    else if OverOwn(s, l, st, endpoint, month, cost) then
      v == Refuse(ScopeExceeded(if endpoint == Embeddings then QwenMonthly else if s.phase == Backfill then HindsightBackfill else HindsightMonthly))
    else if input + output > s.tpmLimit then
      v == TooLarge
    else
      v.Grant? || v.Wait?
  }

  lemma PricedAlike(s: Settings, model: Model, input: nat, output: nat)
    ensures TokenCost(s.guard.PriceOf(model), input, output) == PriceOfRequest(s.guard, model, input, output)
  {
  }

  lemma OwnLimit(s: Settings, l: Ledger, st: State, endpoint: Endpoint, month: nat, cost: real)
    requires TaggedCalls(l.calls) && TaggedItems(st.inFlight)
    ensures var (scope, period) := ScopeFor(s, endpoint, month);
            Charged(l.calls, Only(scope, period)) + Pending(st.inFlight, Only(scope, period)) + cost > ScopeLimit(s.guard, scope)
            <==> OverOwn(s, l, st, endpoint, month, cost)
  {
    ChargedByEndpoint(l.calls, month);
    HeldByEndpoint(st.inFlight, month);
  }

  lemma DecisionIsJudged(s: Settings, l: Ledger, st: State, endpoint: Endpoint, model: Model, input: nat, output: nat, month: nat, now: real)
    requires TaggedCalls(l.calls) && TaggedItems(st.inFlight)
    ensures var (scope, period) := ScopeFor(s, endpoint, month);
            JudgedAs(Decide(s, l, st, ItemFor(s, endpoint, model, scope, period, input, output, now)), s, l, st, endpoint, model, input, output, month)
  {
    PricedAlike(s, model, input, output);
    OwnLimit(s, l, st, endpoint, month, PriceOfRequest(s.guard, model, input, output));
    SumMapCongruent(st.inFlight, PendingWeight(Everything), TotalWeight());
  }

  /** Where a request counts: embeddings in their month, chat in the backfill phase against one total, else in their month. */
  lemma ScopesAreTagged(s: Settings, endpoint: Endpoint, month: nat)
    ensures var (scope, period) := ScopeFor(s, endpoint, month);
            && Tagged(endpoint, scope, period)
            && (endpoint == Embeddings ==> period == Month(month))
            && (endpoint == Chat && s.phase == Backfill ==> period == AllTime)
            && (endpoint == Chat && s.phase == Monthly ==> period == Month(month))
  {
  }
}
