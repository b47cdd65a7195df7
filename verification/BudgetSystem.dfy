/** The proxy as a transition system: any interleaving of request threads, single file writes, crashes,
    restarts and offline repairs. A locked section changes memory and queues its file writes; while
    the queue is not empty the lock is held, so only the next write or a crash can happen. */
module BudgetSystem {
  import opened Sums
  import opened BudgetSpec

  datatype Pending = LedgerWrite | StateWrite

  datatype Script = Reconciling | Resetting(token: Token)

  /** A running process: its memory, the writes it still owes, and for the proxy the threads that
      hold a reservation (`owned`) or were refused on money and have yet to open the circuit. */
  datatype Process =
    | Down
    | Proxy(settings: Settings, ledger: Ledger, state: State, todo: seq<Pending>,
            owned: set<RequestId>, refused: multiset<Reason>)
    | Repairing(script: Script, ledger: Ledger, state: State, todo: seq<Pending>)

  /** What happened so far: every reservation ever granted, the real charge of every request sent and not answered with an
      error status, the requests left without a usable answer, the tokens of completed resets, reported token counts. The
      outcomes themselves say so, not what the proxy makes of them. */
  datatype History = History(
    granted: map<RequestId, Item>, sent: map<RequestId, real>, ambiguous: set<RequestId>,
    resets: seq<Token>, reported: map<RequestId, int>)

  datatype System = System(ledger: Ledger, state: State, process: Process, now: real, history: History)

  datatype Event =
    | Elapse(time: real)
    | Launch(settings: Settings)
    | Crash
    | Flush
    | Reserve(id: RequestId, item: Item)
    | Trip(reason: Reason)
    | Send(id: RequestId, charge: real)
    | Finish(id: RequestId, outcome: Outcome)
    | Reconcile
    | Reset(token: Token)

  ghost predicate Initial(s: System) {
    && s.ledger == Ledger(s.ledger.guard, s.ledger.initial, s.ledger.initial, [])
    && s.ledger.guard.Valid() && 0.0 <= s.ledger.initial <= s.ledger.guard.Effective()
    && s.state == NoState && s.process == Down
    && s.history == History(map[], map[], {}, [], map[])
  }

  /** The proxy is up and nobody holds its lock. */
  predicate Idle(s: System) {
    s.process.Proxy? && s.process.todo == []
  }

  ghost predicate Enabled(s: System, e: Event) {
    match e
    case Elapse(time) => time >= 0.0
    case Launch(settings) => s.process.Down? && settings.Valid()
    case Crash => !s.process.Down?
    case Flush => !s.process.Down? && s.process.todo != []
    case Reserve(id, item) =>
      && Idle(s) && id !in s.history.granted && item.startedAt == s.now
      && (exists month :: (item.scope, item.period) == ScopeFor(s.process.settings, item.endpoint, month))
      && item == ItemFor(s.process.settings, item.endpoint, item.model, item.scope, item.period,
                         item.reservation.inputTokens, item.reservation.outputTokens, s.now)
    case Trip(reason) => Idle(s) && reason in s.process.refused
    case Send(id, charge) => s.process.Proxy? && id in s.process.owned && id in s.state.inFlight && charge >= 0.0
    case Finish(id, _) => Idle(s) && id in s.process.owned
    case Reconcile => s.process.Down? && s.state.inFlight != map[]
    case Reset(token) => s.process.Down? && CanReset(s.state, token)
  }

  function WriteOf(s: System): System
    requires !s.process.Down? && s.process.todo != []
  {
    match s.process.todo[0]
    case LedgerWrite => s.(ledger := s.process.ledger)
    case StateWrite => s.(state := s.process.state)
  }

  /** One write reaches the disk; a script ends with its last write. */
  function Flushed(s: System): System
    requires !s.process.Down? && s.process.todo != []
  {
    var w := WriteOf(s);
    var rest := s.process.todo[1..];
    match s.process
    case Proxy(settings, ledger, state, _, owned, refused) =>
      w.(process := Proxy(settings, ledger, state, rest, owned, refused))
    case Repairing(script, ledger, state, _) =>
      if rest != [] then w.(process := Repairing(script, ledger, state, rest))
      else if script.Resetting? then w.(process := Down, history := s.history.(resets := s.history.resets + [script.token]))
      else w.(process := Down)
  }

  function Launched(s: System, settings: Settings): System {
    if !StartAccepts(settings, s.ledger) then s
    else
      s.(process := Proxy(settings, s.ledger, StartState(s.state),
                          if s.state.inFlight != map[] then [StateWrite] else [], {}, multiset{}))
  }

  ghost function Reserved(s: System, id: RequestId, item: Item): System
    requires Idle(s)
  {
    var p := s.process;
    match Decide(p.settings, p.ledger, p.state, item)
    case Grant =>
      s.(process := p.(state := Admitted(p.state, id, item), todo := [StateWrite], owned := p.owned + {id}),
         history := s.history.(granted := s.history.granted[id := item]))
    case Refuse(reason) => s.(process := p.(refused := p.refused + multiset{reason}))
    case TooLarge => s
    case Wait(_) => s
  }

  function Settled(s: System, id: RequestId, outcome: Outcome): System
    requires Idle(s)
  {
    var p := s.process;
    var t := Settle(outcome);
    var charged := outcome.Answered? && outcome.status < 400 && outcome.usage.Some? && id in p.state.inFlight;
    var h := s.history;
    s.(process := p.(ledger := SettledLedger(p.ledger, p.state, id, t),
                     state := SettledState(p.state, id, t),
                     todo := if charged then [LedgerWrite, StateWrite] else [StateWrite],
                     owned := p.owned - {id}),
       history := h.(
         sent := if outcome.Answered? && outcome.status >= 400 then h.sent - {id} else h.sent,
         ambiguous := if outcome.NoAnswer? || (outcome.status < 400 && outcome.usage.None?) then h.ambiguous + {id} else h.ambiguous,
         reported := if charged then h.reported[id := Reported(p.ledger.guard, id, p.state.inFlight[id], outcome.usage.value)] else h.reported))
  }

  function Reported(g: Guard, id: RequestId, item: Item, usage: Usage): int {
    var c := CallFor(g, id, item, usage);
    c.inputTokens + c.outputTokens
  }

  ghost function Step(s: System, e: Event): System
    requires Enabled(s, e)
  {
    match e
    case Elapse(time) => s.(now := s.now + time)
    case Launch(settings) => Launched(s, settings)
    case Crash => s.(process := Down, history := s.history.(ambiguous := s.history.ambiguous + s.state.inFlight.Keys))
    case Flush => Flushed(s)
    case Reserve(id, item) => Reserved(s, id, item)
    case Trip(reason) =>
      s.(process := s.process.(state := Opened(s.process.state, reason), todo := [StateWrite],
                               refused := s.process.refused - multiset{reason}))
    case Send(id, charge) => s.(history := s.history.(sent := s.history.sent[id := charge]))
    case Finish(id, outcome) => Settled(s, id, outcome)
    case Reconcile =>
      s.(process := Repairing(Reconciling, ReconciledLedger(s.ledger, s.state.inFlight), ReconciledState(s.state),
                              [LedgerWrite, StateWrite]))
    case Reset(token) => s.(process := Repairing(Resetting(token), s.ledger, ResetState(s.state, token), [StateWrite]))
  }

  ghost predicate Run(s: System, es: seq<Event>, t: System)
    decreases |es|
  {
    if es == [] then s == t
    else Enabled(s, es[0]) && Run(Step(s, es[0]), es[1..], t)
  }

  ghost predicate Reachable(s: System) {
    exists s0, es :: Initial(s0) && Run(s0, es, s)
  }

  lemma {:induction false} RunConcat(s: System, es: seq<Event>, t: System, fs: seq<Event>, u: System)
    requires Run(s, es, t) && Run(t, fs, u)
    ensures Run(s, es + fs, u)
    decreases |es|
  {
    if es == [] {
      assert es + fs == fs;
    } else {
      assert (es + fs)[1..] == es[1..] + fs;
      RunConcat(Step(s, es[0]), es[1..], t, fs, u);
    }
  }

  lemma RunOne(s: System, e: Event)
    requires Enabled(s, e)
    ensures Run(s, [e], Step(s, e))
  {
    assert [e][1..] == [];
  }

  lemma RunAlso(s: System, es: seq<Event>, t: System, e: Event)
    requires Run(s, es, t) && Enabled(t, e)
    ensures Run(s, es + [e], Step(t, e))
  {
    RunOne(t, e);
    RunConcat(s, es, t, [e], Step(t, e));
  }

  // ---------------------------------------------------------------- accounting quantities

  function Ids(calls: seq<Call>): set<RequestId> {
    set i | 0 <= i < |calls| :: calls[i].id
  }

  /** Amounts by which recorded costs exceeded their reservations. */
  ghost function Overrun(calls: seq<Call>, granted: map<RequestId, Item>, b: Budget): real {
    if calls == [] then 0.0
    else
      var c := Last(calls);
      Overrun(Front(calls), granted, b) +
      if Covers(b, c.scope, c.period) && c.id in granted then Max(0.0, c.cost - granted[c.id].reservation.cost) else 0.0
  }

  /** Amounts charged again for a request that already had a call on the ledger. */
  function ChargedTwice(calls: seq<Call>, b: Budget): real {
    if calls == [] then 0.0
    else
      ChargedTwice(Front(calls), b) +
      if Last(calls).id in Ids(Front(calls)) then CallWeight(b, Last(calls)) else 0.0
  }

  ghost function ExposedWeight(ids: set<RequestId>, b: Budget): (RequestId, Item) -> real {
    (id: RequestId, i: Item) => if id in ids && Covers(b, i.scope, i.period) then i.reservation.cost else 0.0
  }

  /** Reservations still on file for requests already charged: a crash fell between the two writes. */
  ghost function Exposed(l: Ledger, st: State, b: Budget): real {
    SumMap(st.inFlight, ExposedWeight(Ids(l.calls), b))
  }

  function Base(l: Ledger, b: Budget): real {
    if b == Everything then l.initial else 0.0
  }

  ghost predicate WithinBudget(l: Ledger, st: State, granted: map<RequestId, Item>, b: Budget) {
    Base(l, b) + Charged(l.calls, b) + BudgetSpec.Pending(st.inFlight, b)
      <= Limit(l.guard, b) + Overrun(l.calls, granted, b) + ChargedTwice(l.calls, b) + Exposed(l, st, b)
  }

  ghost function SumCalls(calls: seq<Call>, u: Call -> real): real {
    if calls == [] then 0.0 else SumCalls(Front(calls), u) + u(Last(calls))
  }

  lemma {:induction false} PendingDominates<V>(a: map<RequestId, real>, m: map<RequestId, V>, w: (RequestId, V) -> real)
    requires forall id | id in a :: id in m && a[id] <= w(id, m[id])
    requires forall id | id in m :: w(id, m[id]) >= 0.0
    ensures SumMap(a, Amount()) <= SumMap(m, w)
    decreases |m|
  {
    if m == map[] {
      assert a == map[];
    } else if id :| id in m {
      SumMapRemove(m, w, id);
      assert (m - {id}).Keys == m.Keys - {id};
      if id in a {
        SumMapRemove(a, Amount(), id);
        PendingDominates(a - {id}, m - {id}, w);
      } else {
        PendingDominates(a, m - {id}, w);
      }
    }
  }

  ghost function Amount(): (RequestId, real) -> real {
    (id: RequestId, x: real) => x
  }

  /** If every amount is matched by an entry on file that is at least as large, the files hold at least the sum. */
  lemma {:induction false} FilesDominate<V>(a: map<RequestId, real>, calls: seq<Call>, u: Call -> real,
                                            m: map<RequestId, V>, w: (RequestId, V) -> real)
    requires forall i | 0 <= i < |calls| :: u(calls[i]) >= 0.0
    requires forall i | 0 <= i < |calls| && calls[i].id in a :: a[calls[i].id] <= u(calls[i])
    requires forall id | id in m :: w(id, m[id]) >= 0.0
    requires forall id | id in a :: id in Ids(calls) || id in m
    requires forall id | id in a && id in m :: a[id] <= w(id, m[id])
    ensures SumMap(a, Amount()) <= SumCalls(calls, u) + SumMap(m, w)
    decreases |calls|
  {
    if calls == [] {
      PendingDominates(a, m, w);
    } else {
      var front, c := Front(calls), Last(calls);
      assert calls == front + [c];
      AppendIds(front, c);
      assert forall i | 0 <= i < |front| :: front[i] == calls[i];
      if c.id in a {
        SumMapRemove(a, Amount(), c.id);
        FilesDominate(a - {c.id}, front, u, m, w);
      } else {
        FilesDominate(a, front, u, m, w);
      }
    }
  }

  // ---------------------------------------------------------------- the file invariant

  /** Every entry on file stems from a granted reservation, and the running total is exact. */
  ghost predicate Grounded(l: Ledger, st: State, h: History) {
    && l.spent == l.initial + Charged(l.calls, Everything)
    && l.guard.Valid()
    && (forall id | id in st.inFlight :: id in h.granted && st.inFlight[id] == h.granted[id])
    && (forall id | id in h.granted :: h.granted[id].reservation.cost >= 0.0)
    && (forall i | 0 <= i < |l.calls| :: Grants(h.granted, l.calls[i]))
    && (forall i, j | 0 <= i < j < |l.calls| && l.calls[i].id == l.calls[j].id ::
          l.calls[j].cost == h.granted[l.calls[j].id].reservation.cost)
  }

  ghost predicate Grants(granted: map<RequestId, Item>, c: Call) {
    && c.id in granted
    && c.scope == granted[c.id].scope && c.period == granted[c.id].period
    && c.startedAt == granted[c.id].startedAt
    && c.endpoint == granted[c.id].endpoint && c.model == granted[c.id].model
  }

  ghost predicate ChargedAtMaximum(calls: seq<Call>, id: RequestId, item: Item) {
    exists i :: 0 <= i < |calls| && calls[i] == MaximumCall(id, item)
  }

  /** How a pair (ledger, state) on disk or in memory may turn into the next pair. */
  datatype Change =
    | Same
    | Admit(id: RequestId, item: Item)
    | Record(call: Call)
    | Forget(id: RequestId)
    | ChargeAll
    | ForgetAll

  ghost predicate Changes(l: Ledger, st: State, c: Change, l': Ledger, st': State, h: History) {
    match c
    case Same => l' == l && st'.inFlight == st.inFlight
    case Admit(id, item) =>
      && l' == l && st'.inFlight == st.inFlight[id := item]
      && id !in st.inFlight && id !in Ids(l.calls) && id in h.granted && item == h.granted[id]
    case Record(call) =>
      && l' == WithCall(l, call) && st'.inFlight == st.inFlight
      && call.id in st.inFlight && Grants(h.granted, call) && call.id !in Ids(l.calls)
    case Forget(id) =>
      && l' == l && st'.inFlight == st.inFlight - {id} && id in st.inFlight
      && (id in Ids(l.calls) || id !in h.sent) && id !in h.ambiguous
    case ChargeAll => l' == ReconciledLedger(l, st.inFlight) && st'.inFlight == st.inFlight
    case ForgetAll =>
      && l' == l && st'.inFlight == map[]
      && forall id | id in st.inFlight :: ChargedAtMaximum(l.calls, id, st.inFlight[id])
  }

  // ---------------------------------------------------------------- memory and files

  /** The pairs a crash could leave on disk now or after any prefix of the queued writes. */
  ghost predicate View(s: System, l: Ledger, st: State) {
    || (l == s.ledger && st == s.state)
    || (!s.process.Down? && st == s.process.state && l == s.process.ledger)
    || (!s.process.Down? && s.process.todo != [] && s.process.todo[0] == LedgerWrite && st == s.state && l == s.process.ledger)
  }

  ghost predicate Linked(s: System) {
    && (forall id | id in s.history.granted :: s.history.granted[id].reservation.cost >= 0.0)
    && s.history.ambiguous <= s.history.granted.Keys
    && s.state.inFlight.Keys <= s.history.granted.Keys && Ids(s.ledger.calls) <= s.history.granted.Keys
    && s.ledger.guard.Valid()
    && match s.process
       case Down => true
       case Proxy(settings, l, st, todo, owned, _) =>
         && settings.Valid() && l.guard == settings.guard
         && st.inFlight.Keys <= s.history.granted.Keys && Ids(l.calls) <= s.history.granted.Keys
         && (todo == [] || todo == [StateWrite] || todo == [LedgerWrite, StateWrite])
         && (todo == [] ==> st == s.state) && (|todo| <= 1 ==> l == s.ledger)
         && owned <= st.inFlight.Keys && owned !! Ids(l.calls) && owned !! s.history.ambiguous
         && (!st.circuitOpen ==> st.inFlight.Keys <= owned)
         && (s.state.circuitOpen ==> st.circuitOpen)
         && st.consumed == s.state.consumed
       case Repairing(Reconciling, l, st, todo) =>
         && (todo == [StateWrite] || todo == [LedgerWrite, StateWrite])
         && (|todo| == 1 ==> l == s.ledger)
         && (|todo| == 2 ==> l == ReconciledLedger(s.ledger, s.state.inFlight))
         && st == ReconciledState(s.state)
         && Ids(l.calls) <= s.history.granted.Keys
         && (forall id | id in s.state.inFlight :: ChargedAtMaximum(l.calls, id, s.state.inFlight[id]))
       case Repairing(Resetting(token), l, st, todo) =>
         && todo == [StateWrite] && l == s.ledger
         && CanReset(s.state, token) && st == ResetState(s.state, token)
  }

  lemma {:induction false} MaximumCallsCover(m: map<RequestId, Item>, id: RequestId)
    requires id in m
    ensures ChargedAtMaximum(MaximumCalls(m), id, m[id])
    decreases |m|
  {
    var k := MinKey(m);
    assert (m - {k}).Keys == m.Keys - {k};
    var rest := MaximumCalls(m - {k});
    assert MaximumCalls(m) == [MaximumCall(k, m[k])] + rest;
    if id == k {
      assert MaximumCalls(m)[0] == MaximumCall(id, m[id]);
    } else {
      MaximumCallsCover(m - {k}, id);
      var i :| 0 <= i < |rest| && rest[i] == MaximumCall(id, m[id]);
      assert MaximumCalls(m)[i + 1] == rest[i];
    }
  }

  lemma {:induction false} MaximumCallsOnly(m: map<RequestId, Item>, i: nat)
    requires i < |MaximumCalls(m)|
    ensures var c := MaximumCalls(m)[i]; c.id in m && c == MaximumCall(c.id, m[c.id])
    decreases |m|
  {
    var k := MinKey(m);
    assert (m - {k}).Keys == m.Keys - {k};
    assert MaximumCalls(m) == [MaximumCall(k, m[k])] + MaximumCalls(m - {k});
    if i > 0 {
      MaximumCallsOnly(m - {k}, i - 1);
      assert MaximumCalls(m)[i] == MaximumCalls(m - {k})[i - 1];
    }
  }

  lemma MaximumCallCharged(m: map<RequestId, Item>, before: seq<Call>, id: RequestId)
    requires id in m
    ensures ChargedAtMaximum(before + MaximumCalls(m), id, m[id]) && id in Ids(before + MaximumCalls(m))
  {
    MaximumCallsCover(m, id);
    var i :| 0 <= i < |MaximumCalls(m)| && MaximumCalls(m)[i] == MaximumCall(id, m[id]);
    assert (before + MaximumCalls(m))[|before| + i] == MaximumCall(id, m[id]);
  }

  lemma MaximumCallsIds(m: map<RequestId, Item>, before: seq<Call>, id: RequestId)
    ensures id in Ids(before + MaximumCalls(m)) <==> id in Ids(before) || id in m
  {
    var all := before + MaximumCalls(m);
    if id in m { MaximumCallCharged(m, before, id); }
    if i :| 0 <= i < |before| && before[i].id == id { assert all[i].id == id; }
    if i :| 0 <= i < |all| && all[i].id == id {
      if i >= |before| { MaximumCallsOnly(m, i - |before|); }
    }
  }

  lemma MaximumCallsCharge(m: map<RequestId, Item>, before: seq<Call>)
    ensures forall id | id in m :: ChargedAtMaximum(before + MaximumCalls(m), id, m[id])
    ensures Ids(before + MaximumCalls(m)) == Ids(before) + m.Keys
  {
    forall id | id in m ensures ChargedAtMaximum(before + MaximumCalls(m), id, m[id]) {
      MaximumCallCharged(m, before, id);
    }
    forall id ensures id in Ids(before + MaximumCalls(m)) <==> id in Ids(before) + m.Keys {
      MaximumCallsIds(m, before, id);
    }
  }

  lemma AppendIds(calls: seq<Call>, c: Call)
    ensures Ids(calls + [c]) == Ids(calls) + {c.id}
  {
    assert (calls + [c])[|calls|] == c;
    forall id | id in Ids(calls) ensures id in Ids(calls + [c]) {
      var i :| 0 <= i < |calls| && calls[i].id == id;
      assert (calls + [c])[i].id == id;
    }
  }

  lemma LinkedInitially(s: System)
    requires Initial(s)
    ensures Linked(s)
  {
  }

  lemma NonNegativeCost(s: Settings, endpoint: Endpoint, model: Model, scope: Scope, period: BudgetSpec.Period,
                        input: nat, output: nat, now: real)
    requires s.guard.Valid()
    ensures ItemFor(s, endpoint, model, scope, period, input, output, now).reservation.cost >= 0.0
  {
    TokenCostMonotone(s.guard.PriceOf(model), 0, 0, input, output);
  }

  lemma LinkedReserve(s: System, id: RequestId, item: Item)
    requires Linked(s) && Enabled(s, Reserve(id, item))
    ensures Linked(Reserved(s, id, item))
  {
    NonNegativeCost(s.process.settings, item.endpoint, item.model, item.scope, item.period,
                    item.reservation.inputTokens, item.reservation.outputTokens, s.now);
  }

  lemma LinkedFlush(s: System)
    requires Linked(s) && Enabled(s, Flush)
    ensures Linked(Flushed(s))
  {
  }

  lemma LinkedReconcile(s: System)
    requires Linked(s) && Enabled(s, Reconcile)
    ensures Linked(Step(s, Reconcile))
  {
    MaximumCallsCharge(s.state.inFlight, s.ledger.calls);
  }

  lemma LinkedStep(s: System, e: Event)
    requires Linked(s) && Enabled(s, e)
    ensures Linked(Step(s, e))
  {
    match e
    case Reserve(id, item) => LinkedReserve(s, id, item);
    case Finish(id, outcome) => LinkedFinish(s, id, outcome);
    case Reconcile => LinkedReconcile(s);
    case Flush => LinkedFlush(s);
    case _ =>
  }

  lemma LinkedFinish(s: System, id: RequestId, outcome: Outcome)
    requires Linked(s) && Enabled(s, Finish(id, outcome))
    ensures Linked(Settled(s, id, outcome))
  {
    var p := s.process;
    if Settle(outcome).Charge? {
      AppendIds(p.ledger.calls, CallFor(p.ledger.guard, id, p.state.inFlight[id], Settle(outcome).usage));
    }
  }

  /** Every pair a step can put on disk comes from a pair of the state before by at most two changes. */
  lemma StepView(s: System, e: Event, l': Ledger, st': State)
      returns (l: Ledger, st: State, c1: Change, lm: Ledger, stm: State, c2: Change)
    requires Linked(s) && Enabled(s, e) && View(Step(s, e), l', st')
    requires forall i | 0 <= i < |s.ledger.calls| :: Grants(s.history.granted, s.ledger.calls[i])
    requires forall id | id in s.state.inFlight :: id in s.history.granted && s.state.inFlight[id] == s.history.granted[id]
    ensures View(s, l, st)
    ensures Changes(l, st, c1, lm, stm, Step(s, e).history)
    ensures Changes(lm, stm, c2, l', st', Step(s, e).history)
    ensures !c2.Admit? && !c2.Record?
    ensures c1.Record? ==> c1.call.id in Step(s, e).history.reported
                           && Step(s, e).history.reported[c1.call.id] == c1.call.inputTokens + c1.call.outputTokens
    ensures c1.Admit? ==> e == Reserve(c1.id, c1.item) && l == s.ledger && st == s.state
                          && Decide(s.process.settings, l, st, c1.item) == Grant
  {
    l, st, c1, lm, stm, c2 := l', st', Same, l', st', Same;
    var t := Step(s, e);
    match e
    case Reserve(id, item) =>
      if !View(s, l', st') {
        l, st, c1 := s.ledger, s.state, Admit(id, item);
      }
    case Trip(_) => l, st := s.ledger, s.state;
    case Launch(_) => l, st := s.ledger, s.state;
    case Finish(id, outcome) =>
      l, st := s.ledger, s.state;
      var p := s.process;
      match Settle(outcome) {
        case Charge(usage) =>
          var call := CallFor(p.ledger.guard, id, p.state.inFlight[id], usage);
          AppendIds(p.ledger.calls, call);
          if l' == t.process.ledger {
            c1, lm, stm := Record(call), l', s.state;
            if st' == t.process.state { c2 := Forget(id); }
          }
        case _ =>
          if st' == t.process.state && id !in st'.inFlight { c1 := Forget(id); }
      }
    case Reconcile =>
      l, st := s.ledger, s.state;
      MaximumCallsCharge(s.state.inFlight, s.ledger.calls);
      if l' == t.process.ledger {
        c1, lm, stm := ChargeAll, l', s.state;
        if st' == t.process.state { c2 := ForgetAll; }
      }
    case Reset(_) => l, st := s.ledger, s.state;
    case _ =>
  }
}
