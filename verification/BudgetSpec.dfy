/** Values kept by the budget proxy and what each of its locked sections computes.
    Money and time are reals; request identifiers, months and reset tokens are naturals,
    of which only equality (and, for identifiers, the sort order) is used. */
module BudgetSpec {
  import opened Options
  import opened Sums

  type RequestId = nat
  type Token = nat

  datatype Model = Hindsight | Qwen
  datatype Endpoint = Chat | Embeddings
  datatype Phase = Backfill | Monthly
  datatype Scope = QwenMonthly | HindsightBackfill | HindsightMonthly
  datatype Period = AllTime | Month(number: nat)

  datatype Price = Price(input: real, output: real)

  /** The limits and prices a ledger is bound to for life. */
  datatype Guard = Guard(
    totalLimit: real, safetyMargin: real,
    backfillLimit: real, monthlyLimit: real, qwenLimit: real,
    hindsightPrice: Price, qwenPrice: Price)
  {
    function Effective(): real { totalLimit - safetyMargin }

    function PriceOf(m: Model): Price {
      match m
      case Hindsight => hindsightPrice
      case Qwen => qwenPrice
    }

    /** What Settings.from_env accepts. */
    ghost predicate Valid() {
      && totalLimit > 0.0 && 0.0 <= safetyMargin < totalLimit
      && 0.0 < backfillLimit <= Effective() && monthlyLimit > 0.0 && qwenLimit > 0.0
      && hindsightPrice.input > 0.0 && hindsightPrice.output > 0.0
      && qwenPrice.input > 0.0 && qwenPrice.output >= 0.0
    }
  }

  datatype Settings = Settings(guard: Guard, phase: Phase, rpmLimit: nat, tpmLimit: nat, initialSpend: real) {
    ghost predicate Valid() {
      guard.Valid() && rpmLimit > 0 && tpmLimit > 0 && initialSpend >= 0.0
    }
  }

  datatype Reservation = Reservation(inputTokens: nat, outputTokens: nat, cost: real)

  datatype Item = Item(
    model: Model, endpoint: Endpoint, scope: Scope, period: Period,
    startedAt: real, reservation: Reservation)
  {
    function Tokens(): nat { reservation.inputTokens + reservation.outputTokens }
  }

  datatype Call = Call(
    id: RequestId, startedAt: real, model: Model, endpoint: Endpoint, scope: Scope, period: Period,
    inputTokens: int, outputTokens: int, cost: real, reconciled: bool)

  datatype Ledger = Ledger(guard: Guard, initial: real, spent: real, calls: seq<Call>)

  datatype Reason =
    | Unexplained
    | ProviderTotalExceeded
    | ScopeExceeded(scope: Scope)
    | ProviderReturned(status: nat)
    | FoundAfterRestart
    | AmbiguousUpstream

  datatype State = State(
    circuitOpen: bool, reason: Option<Reason>, inFlight: map<RequestId, Item>, consumed: seq<Token>)

  const NoState := State(false, None, map[], [])

  function FreshLedger(s: Settings): Ledger {
    Ledger(s.guard, s.initialSpend, s.initialSpend, [])
  }

  // ---------------------------------------------------------------- budgets

  /** The two kinds of ceiling: all traffic, or one (scope, period) pair. */
  datatype Budget = Everything | Only(scope: Scope, period: Period)

  predicate Covers(b: Budget, scope: Scope, period: Period) {
    b == Everything || b == Only(scope, period)
  }

  function ScopeLimit(g: Guard, scope: Scope): real {
    match scope
    case QwenMonthly => g.qwenLimit
    case HindsightBackfill => g.backfillLimit
    case HindsightMonthly => g.monthlyLimit
  }

  function Limit(g: Guard, b: Budget): real {
    match b
    case Everything => g.Effective()
    case Only(scope, _) => ScopeLimit(g, scope)
  }

  function ScopeFor(s: Settings, endpoint: Endpoint, month: nat): (Scope, Period) {
    if endpoint == Embeddings then (QwenMonthly, Month(month))
    else if s.phase == Backfill then (HindsightBackfill, AllTime)
    else (HindsightMonthly, Month(month))
  }

  function CallWeight(b: Budget, c: Call): real {
    if Covers(b, c.scope, c.period) then c.cost else 0.0
  }

  /** Cost already on the ledger against a budget. */
  function Charged(calls: seq<Call>, b: Budget): real {
    if calls == [] then 0.0 else Charged(Front(calls), b) + CallWeight(b, Last(calls))
  }

  ghost function PendingWeight(b: Budget): (RequestId, Item) -> real {
    (id: RequestId, i: Item) => if Covers(b, i.scope, i.period) then i.reservation.cost else 0.0
  }

  /** Cost reserved but not yet settled against a budget. */
  ghost function Pending(m: map<RequestId, Item>, b: Budget): real {
    SumMap(m, PendingWeight(b))
  }

  function TokenCost(p: Price, input: int, output: int): real {
    (input as real * p.input + output as real * p.output) / 1000000.0
  }

  // ---------------------------------------------------------------- rolling rate limit

  const WINDOW := 60.0

  predicate Recent(startedAt: real, now: real) {
    0.0 <= now - startedAt < WINDOW
  }

  function RecentCalls(calls: seq<Call>, now: real): nat {
    if calls == [] then 0
    else RecentCalls(Front(calls), now) + if Recent(Last(calls).startedAt, now) then 1 else 0
  }

  function RecentCallTokens(calls: seq<Call>, now: real): int {
    if calls == [] then 0
    else
      RecentCallTokens(Front(calls), now) +
      if Recent(Last(calls).startedAt, now) then Last(calls).inputTokens + Last(calls).outputTokens else 0
  }

  function RecentItems(m: map<RequestId, Item>, now: real): set<RequestId> {
    set id | id in m && Recent(m[id].startedAt, now)
  }

  ghost function TokenWeight(now: real): (RequestId, Item) -> real {
    (id: RequestId, i: Item) => if Recent(i.startedAt, now) then i.Tokens() as real else 0.0
  }

  function RecentCount(l: Ledger, st: State, now: real): nat {
    RecentCalls(l.calls, now) + |RecentItems(st.inFlight, now)|
  }

  ghost function RecentTokens(l: Ledger, st: State, now: real): real {
    RecentCallTokens(l.calls, now) as real + SumMap(st.inFlight, TokenWeight(now))
  }

  function RecentStarts(l: Ledger, st: State, now: real): set<real> {
    (set i | 0 <= i < |l.calls| && Recent(l.calls[i].startedAt, now) :: l.calls[i].startedAt) +
    (set id | id in st.inFlight && Recent(st.inFlight[id].startedAt, now) :: st.inFlight[id].startedAt)
  }

  ghost predicate IsEarliest(x: real, s: set<real>) {
    x in s && forall y | y in s :: x <= y
  }

  lemma HasElement(s: set<real>)
    ensures s == {} || exists x :: x in s
  {
    if forall x :: x !in s {
      assert s == {};
    }
  }

  lemma {:induction false} EarliestExists(s: set<real>)
    requires s != {}
    ensures exists x :: IsEarliest(x, s)
    decreases |s|
  {
    HasElement(s);
    var x :| x in s;
    var rest := s - {x};
    assert s == rest + {x};
    if rest == {} {
      assert IsEarliest(x, s);
    } else {
      EarliestExists(rest);
      var y :| IsEarliest(y, rest);
      assert IsEarliest(if x <= y then x else y, s);
    }
  }

  ghost function Earliest(s: set<real>): (x: real)
    requires s != {}
    ensures IsEarliest(x, s)
  {
    EarliestExists(s);
    var x :| IsEarliest(x, s);
    x
  }

  ghost predicate RateBlocked(s: Settings, l: Ledger, st: State, tokens: nat, now: real) {
    || RecentCount(l, st, now) >= s.rpmLimit
    || RecentTokens(l, st, now) + tokens as real > s.tpmLimit as real
  }

  /** How long a request must wait before it is worth asking again; zero when it may go. */
  ghost function RateDelay(s: Settings, l: Ledger, st: State, tokens: nat, now: real): real {
    if !RateBlocked(s, l, st, tokens, now) then 0.0
    else if RecentStarts(l, st, now) == {} then 1.0
    else Max(0.05, WINDOW - (now - Earliest(RecentStarts(l, st, now))))
  }

  // ---------------------------------------------------------------- reserving

  datatype Verdict = Grant | Refuse(reason: Reason) | TooLarge | Wait(delay: real)

  function ReasonGiven(st: State): Reason {
    if st.reason.Some? then st.reason.value else Unexplained
  }

  function ItemFor(s: Settings, endpoint: Endpoint, model: Model, scope: Scope, period: Period,
                   input: nat, output: nat, now: real): Item {
    Item(model, endpoint, scope, period, now,
         Reservation(input, output, TokenCost(s.guard.PriceOf(model), input, output)))
  }

  /** The decision one pass of the reserve loop takes for the request described by `item`. */
  ghost function Decide(s: Settings, l: Ledger, st: State, item: Item): Verdict {
    var b := Only(item.scope, item.period);
    if st.circuitOpen then Refuse(ReasonGiven(st))
    else if l.spent + Pending(st.inFlight, Everything) + item.reservation.cost > s.guard.Effective() then
      Refuse(ProviderTotalExceeded)
    else if Charged(l.calls, b) + Pending(st.inFlight, b) + item.reservation.cost > ScopeLimit(s.guard, item.scope) then
      Refuse(ScopeExceeded(item.scope))
    else if item.Tokens() > s.tpmLimit then TooLarge
    else
      var delay := RateDelay(s, l, st, item.Tokens(), item.startedAt);
      if delay <= 0.0 then Grant else Wait(delay)
  }

  function Admitted(st: State, id: RequestId, item: Item): State {
    st.(inFlight := st.inFlight[id := item])
  }

  // ---------------------------------------------------------------- settling

  function Opened(st: State, reason: Reason): State {
    st.(circuitOpen := true, reason := Some(reason))
  }

  function Dropped(st: State, id: RequestId): State {
    st.(inFlight := st.inFlight - {id})
  }

  /** The usage block of a provider answer; every field may be missing. */
  datatype Usage = Usage(prompt: Option<int>, completion: Option<int>, total: Option<int>, cost: Option<real>)

  function Or<T>(o: Option<T>, default: T): T {
    if o.Some? then o.value else default
  }

  function IntMax(a: int, b: int): int {
    if a >= b then a else b
  }

  function CallFor(g: Guard, id: RequestId, item: Item, usage: Usage): Call {
    var input := Or(usage.prompt, item.reservation.inputTokens);
    var plain := Or(usage.completion, item.reservation.outputTokens);
    var output := if usage.total.Some? then IntMax(plain, IntMax(0, usage.total.value - input)) else plain;
    var cost := Max(TokenCost(g.PriceOf(item.model), input, output), Or(usage.cost, 0.0));
    Call(id, item.startedAt, item.model, item.endpoint, item.scope, item.period, input, output, cost, false)
  }

  function WithCall(l: Ledger, c: Call): Ledger {
    l.(calls := l.calls + [c], spent := l.spent + c.cost)
  }

  /**
   * A recorded call takes what was reported and, where nothing was, what was reserved; a reported total only raises the
   * output, and a reported cost only raises the cost above the token prices of the request's model.
   */
  lemma RecordedCallCoversReport(g: Guard, id: RequestId, item: Item, usage: Usage)
    ensures var c := CallFor(g, id, item, usage);
            && c.id == id && c.startedAt == item.startedAt && c.model == item.model && c.endpoint == item.endpoint
            && c.scope == item.scope && c.period == item.period && !c.reconciled
    ensures var c := CallFor(g, id, item, usage);
            && c.inputTokens == (if usage.prompt.Some? then usage.prompt.value else item.reservation.inputTokens)
            && c.outputTokens >= (if usage.completion.Some? then usage.completion.value else item.reservation.outputTokens)
            && (usage.total.Some? ==> c.outputTokens >= 0 && c.inputTokens + c.outputTokens >= usage.total.value)
            && (|| c.outputTokens == (if usage.completion.Some? then usage.completion.value else item.reservation.outputTokens)
                || (usage.total.Some? && (c.outputTokens == 0 || c.inputTokens + c.outputTokens == usage.total.value)))
    ensures var c := CallFor(g, id, item, usage);
            var price := if item.model == Hindsight then g.hindsightPrice else g.qwenPrice;
            var priced := (c.inputTokens as real * price.input + c.outputTokens as real * price.output) / 1000000.0;
            && c.cost >= priced && (usage.cost.Some? ==> c.cost >= usage.cost.value) && (usage.cost.None? ==> c.cost >= 0.0)
            && (c.cost == priced || usage.cost == Some(c.cost) || (usage.cost.None? && c.cost == 0.0))
  {
  }

  lemma TokenCostMonotone(p: Price, i: int, o: int, i': int, o': int)
    requires p.input >= 0.0 && p.output >= 0.0 && i <= i' && o <= o'
    ensures TokenCost(p, i, o) <= TokenCost(p, i', o')
  {
    var di, d := (i' - i) as real, (o' - o) as real;
    assert i' as real * p.input == i as real * p.input + di * p.input;
    assert o' as real * p.output == o as real * p.output + d * p.output;
    assert di * p.input >= 0.0 && d * p.output >= 0.0;
  }

  /** A report that stays within the reserved tokens and the reserved cost cannot overrun the reservation. */
  lemma NoOverrunWithinReservation(g: Guard, id: RequestId, item: Item, usage: Usage)
    requires g.Valid()
    requires item.reservation.cost == TokenCost(g.PriceOf(item.model), item.reservation.inputTokens, item.reservation.outputTokens)
    requires var c := CallFor(g, id, item, usage);
             c.inputTokens <= item.reservation.inputTokens && c.outputTokens <= item.reservation.outputTokens
    requires Or(usage.cost, 0.0) <= item.reservation.cost
    ensures CallFor(g, id, item, usage).cost <= item.reservation.cost
  {
    var c := CallFor(g, id, item, usage);
    TokenCostMonotone(g.PriceOf(item.model), c.inputTokens, c.outputTokens,
                      item.reservation.inputTokens, item.reservation.outputTokens);
  }

  /** How an upstream call ended: an HTTP answer, whose body may fail to decode, or no answer at all. */
  datatype Outcome = Answered(status: nat, usage: Option<Usage>) | NoAnswer

  datatype Settlement = Reject(reason: Reason) | Charge(usage: Usage) | Release | KeepAmbiguous

  /** The outcome branching of the POST handler. */
  function Settle(o: Outcome): Settlement {
    match o
    case NoAnswer => KeepAmbiguous
    case Answered(status, usage) =>
      if status == 401 || status == 402 then Reject(ProviderReturned(status))
      else if status < 400 then (if usage.Some? then Charge(usage.value) else KeepAmbiguous)
      else Release
  }

  function SettledLedger(l: Ledger, st: State, id: RequestId, s: Settlement): Ledger {
    if s.Charge? && id in st.inFlight then WithCall(l, CallFor(l.guard, id, st.inFlight[id], s.usage)) else l
  }

  function SettledState(st: State, id: RequestId, s: Settlement): State {
    match s
    case Reject(reason) => Opened(Dropped(st, id), reason)
    case Charge(_) => if id in st.inFlight then Dropped(st, id) else Opened(st, AmbiguousUpstream)
    case Release => Dropped(st, id)
    case KeepAmbiguous => Opened(st, AmbiguousUpstream)
  }

  // ---------------------------------------------------------------- offline repairs

  ghost function MinKey(m: map<RequestId, Item>): (k: RequestId)
    requires m != map[]
    ensures IsLeast(k, m.Keys)
  {
    assert m.Keys != {};
    LeastExists(m.Keys);
    var k :| IsLeast(k, m.Keys);
    k
  }

  function MaximumCall(id: RequestId, item: Item): Call {
    Call(id, item.startedAt, item.model, item.endpoint, item.scope, item.period,
         item.reservation.inputTokens, item.reservation.outputTokens, item.reservation.cost, true)
  }

  /** One call per ambiguous reservation, in identifier order, each at its reserved maximum. */
  ghost function MaximumCalls(m: map<RequestId, Item>): seq<Call>
    decreases |m|
  {
    if m == map[] then []
    else
      var k := MinKey(m);
      assert |m - {k}| < |m| by { assert (m - {k}).Keys == m.Keys - {k}; }
      [MaximumCall(k, m[k])] + MaximumCalls(m - {k})
  }

  ghost function ReconciledLedger(l: Ledger, m: map<RequestId, Item>): Ledger {
    l.(calls := l.calls + MaximumCalls(m), spent := l.spent + Pending(m, Everything))
  }

  function ReconciledState(st: State): State {
    st.(inFlight := map[], circuitOpen := false, reason := None)
  }

  predicate Resettable(r: Reason) {
    r == ProviderReturned(401) || r == ProviderReturned(402)
  }

  predicate CanReset(st: State, token: Token) {
    && st.circuitOpen && st.inFlight == map[]
    && Resettable(ReasonGiven(st))
    && token !in st.consumed
  }

  function ResetState(st: State, token: Token): State {
    st.(circuitOpen := false, reason := None, consumed := st.consumed + [token])
  }

  /** What the proxy refuses to start on. */
  predicate StartAccepts(s: Settings, l: Ledger) {
    && l.guard == s.guard
    && -0.000000000001 <= l.initial - s.initialSpend <= 0.000000000001
    && l.spent <= s.guard.Effective()
  }

  function StartState(st: State): State {
    if st.inFlight != map[] then Opened(st, FoundAfterRestart) else st
  }
}
