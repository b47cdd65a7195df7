/** Money safety over every run: what is spent or reserved stays within each ceiling, except for
    recorded overruns and for requests charged again because of a crash. */
module BudgetMoney {
  import opened Sums
  import opened BudgetSpec
  import opened BudgetCeilings
  import opened BudgetSystem

  ghost predicate Accounted(l: Ledger, st: State, h: History) {
    Grounded(l, st, h) && forall b :: WithinBudget(l, st, h.granted, b)
  }

  ghost predicate MoneySafe(s: System) {
    Linked(s) && forall l, st | View(s, l, st) :: Accounted(l, st, s.history)
  }

  // ---------------------------------------------------------------- one more call

  lemma AppendCall(calls: seq<Call>, c: Call, granted: map<RequestId, Item>, b: Budget)
    ensures Charged(calls + [c], b) == Charged(calls, b) + CallWeight(b, c)
    ensures Overrun(calls + [c], granted, b) ==
            Overrun(calls, granted, b) +
            if Covers(b, c.scope, c.period) && c.id in granted then Max(0.0, c.cost - granted[c.id].reservation.cost) else 0.0
    ensures ChargedTwice(calls + [c], b) ==
            ChargedTwice(calls, b) + if c.id in Ids(calls) then CallWeight(b, c) else 0.0
  {
    assert Front(calls + [c]) == calls && Last(calls + [c]) == c;
  }

  lemma {:induction false} ConcatCharged(calls: seq<Call>, more: seq<Call>, b: Budget)
    ensures Charged(calls + more, b) == Charged(calls, b) + Charged(more, b)
  {
    if more == [] {
      assert calls + more == calls;
    } else {
      assert Front(calls + more) == calls + Front(more) && Last(calls + more) == Last(more);
      ConcatCharged(calls, Front(more), b);
    }
  }

  lemma {:induction false} MaximumCallsCost(m: map<RequestId, Item>, b: Budget)
    ensures Charged(MaximumCalls(m), b) == BudgetSpec.Pending(m, b)
    decreases |m|
  {
    if m != map[] {
      var k := MinKey(m);
      var first := MaximumCall(k, m[k]);
      assert (m - {k}).Keys == m.Keys - {k};
      MaximumCallsCost(m - {k}, b);
      SumMapRemove(m, PendingWeight(b), k);
      ConcatCharged([first], MaximumCalls(m - {k}), b);
      assert Front([first]) == [] && Last([first]) == first;
      assert Charged([first], b) == CallWeight(b, first);
    }
  }

  /** Charging a request that is still on file as pending exposes its reservation, or charges it twice. */
  lemma ExposeOne(m: map<RequestId, Item>, ids: set<RequestId>, id: RequestId, b: Budget)
    requires id in m
    ensures SumMap(m, ExposedWeight(ids + {id}, b)) ==
            SumMap(m, ExposedWeight(ids, b)) + if id in ids then 0.0 else PendingWeight(b)(id, m[id])
  {
    SumMapRemove(m, ExposedWeight(ids, b), id);
    SumMapRemove(m, ExposedWeight(ids + {id}, b), id);
    SumMapCongruent(m - {id}, ExposedWeight(ids, b), ExposedWeight(ids + {id}, b));
  }

  // ---------------------------------------------------------------- signs

  lemma {:induction false} OverrunNonNegative(calls: seq<Call>, granted: map<RequestId, Item>, b: Budget)
    ensures Overrun(calls, granted, b) >= 0.0
  {
    if calls != [] { OverrunNonNegative(Front(calls), granted, b); }
  }

  lemma {:induction false} ChargedTwiceNonNegative(l: Ledger, st: State, h: History, n: nat, b: Budget)
    requires Grounded(l, st, h) && n <= |l.calls|
    ensures ChargedTwice(l.calls[..n], b) >= 0.0
  {
    if n > 0 {
      assert Front(l.calls[..n]) == l.calls[..n - 1] && Last(l.calls[..n]) == l.calls[n - 1];
      ChargedTwiceNonNegative(l, st, h, n - 1, b);
    }
  }

  lemma SlackNonNegative(l: Ledger, st: State, h: History, b: Budget)
    requires Grounded(l, st, h)
    ensures Overrun(l.calls, h.granted, b) + ChargedTwice(l.calls, b) + Exposed(l, st, b) >= 0.0
  {
    OverrunNonNegative(l.calls, h.granted, b);
    assert l.calls[..|l.calls|] == l.calls;
    ChargedTwiceNonNegative(l, st, h, |l.calls|, b);
    SumMapNonNegative(st.inFlight, ExposedWeight(Ids(l.calls), b));
  }

  // ---------------------------------------------------------------- each change keeps the accounts

  lemma AdmitKeeps(s: Settings, l: Ledger, st: State, h: History, id: RequestId, item: Item, st': State, b: Budget)
    requires Accounted(l, st, h) && Changes(l, st, Admit(id, item), l, st', h)
    requires l.guard == s.guard && Decide(s, l, st, item) == Grant
    ensures WithinBudget(l, st', h.granted, b)
  {
    SumMapInsert(st.inFlight, PendingWeight(b), id, item);
    SumMapInsert(st.inFlight, ExposedWeight(Ids(l.calls), b), id, item);
    assert WithinBudget(l, st, h.granted, b);
    SlackNonNegative(l, st, h, b);
  }

  lemma RecordKeeps(l: Ledger, st: State, h: History, c: Call, l': Ledger, st': State, b: Budget)
    requires Accounted(l, st, h) && Changes(l, st, Record(c), l', st', h)
    ensures WithinBudget(l', st', h.granted, b)
  {
    AppendCall(l.calls, c, h.granted, b);
    AppendIds(l.calls, c);
    ExposeOne(st.inFlight, Ids(l.calls), c.id, b);
    assert WithinBudget(l, st, h.granted, b);
  }

  lemma ForgetKeeps(l: Ledger, st: State, h: History, id: RequestId, st': State, b: Budget)
    requires Accounted(l, st, h) && Changes(l, st, Forget(id), l, st', h)
    ensures WithinBudget(l, st', h.granted, b)
  {
    SumMapRemove(st.inFlight, PendingWeight(b), id);
    SumMapRemove(st.inFlight, ExposedWeight(Ids(l.calls), b), id);
    assert WithinBudget(l, st, h.granted, b);
  }

  lemma ChargeOneKeeps(l: Ledger, st: State, granted: map<RequestId, Item>, k: RequestId, b: Budget)
    requires WithinBudget(l, st, granted, b)
    requires k in st.inFlight && k in granted && granted[k] == st.inFlight[k]
    ensures WithinBudget(l.(calls := l.calls + [MaximumCall(k, st.inFlight[k])]), st, granted, b)
  {
    var first := MaximumCall(k, st.inFlight[k]);
    AppendCall(l.calls, first, granted, b);
    AppendIds(l.calls, first);
    ExposeOne(st.inFlight, Ids(l.calls), k, b);
  }

  lemma {:induction false} ChargeAllKeeps(l: Ledger, st: State, granted: map<RequestId, Item>, more: seq<Call>, b: Budget)
    requires WithinBudget(l, st, granted, b)
    requires forall i | 0 <= i < |more| :: more[i].id in st.inFlight && more[i] == MaximumCall(more[i].id, st.inFlight[more[i].id])
    requires forall id | id in st.inFlight :: id in granted && granted[id] == st.inFlight[id]
    ensures WithinBudget(l.(calls := l.calls + more), st, granted, b)
  {
    if more == [] {
      assert l.calls + more == l.calls;
    } else {
      ChargeAllKeeps(l, st, granted, Front(more), b);
      ChargeOneKeeps(l.(calls := l.calls + Front(more)), st, granted, Last(more).id, b);
      assert l.calls + Front(more) + [Last(more)] == l.calls + more;
    }
  }

  lemma ForgetAllKeeps(l: Ledger, st: State, h: History, st': State, b: Budget)
    requires Accounted(l, st, h) && Changes(l, st, ForgetAll, l, st', h)
    ensures WithinBudget(l, st', h.granted, b)
  {
    forall id | id in st.inFlight ensures id in Ids(l.calls) {
      var i :| 0 <= i < |l.calls| && l.calls[i] == MaximumCall(id, st.inFlight[id]);
      assert l.calls[i].id == id;
    }
    SumMapCongruent(st.inFlight, PendingWeight(b), ExposedWeight(Ids(l.calls), b));
    assert WithinBudget(l, st, h.granted, b);
  }

  lemma GroundedAfter(l: Ledger, st: State, c: Change, l': Ledger, st': State, h: History)
    requires Grounded(l, st, h) && Changes(l, st, c, l', st', h)
    ensures Grounded(l', st', h)
  {
    match c
    case Record(call) => GroundedRecord(l, st, call, l', st', h);
    case ChargeAll => GroundedChargeAll(l, st, l', st', h);
    case _ =>
  }

  lemma GroundedRecord(l: Ledger, st: State, call: Call, l': Ledger, st': State, h: History)
    requires Grounded(l, st, h) && Changes(l, st, Record(call), l', st', h)
    ensures Grounded(l', st', h)
  {
    AppendCall(l.calls, call, h.granted, Everything);
    forall i | 0 <= i < |l.calls| ensures l.calls[i].id in Ids(l.calls) {}
  }

  lemma GroundedChargeAll(l: Ledger, st: State, l': Ledger, st': State, h: History)
    requires Grounded(l, st, h) && Changes(l, st, ChargeAll, l', st', h)
    ensures Grounded(l', st', h)
  {
    ConcatCharged(l.calls, MaximumCalls(st.inFlight), Everything);
    MaximumCallsCost(st.inFlight, Everything);
    forall i | |l.calls| <= i < |l'.calls|
      ensures Grants(h.granted, l'.calls[i]) && l'.calls[i].cost == h.granted[l'.calls[i].id].reservation.cost
    {
      MaximumCallsOnly(st.inFlight, i - |l.calls|);
    }
  }

  lemma AccountedAfter(l: Ledger, st: State, c: Change, l': Ledger, st': State, h: History)
    requires Accounted(l, st, h) && Changes(l, st, c, l', st', h) && !c.Admit?
    ensures Accounted(l', st', h)
  {
    GroundedAfter(l, st, c, l', st', h);
    forall b ensures WithinBudget(l', st', h.granted, b) {
      assert WithinBudget(l, st, h.granted, b);
      match c {
        case Record(call) => RecordKeeps(l, st, h, call, l', st', b);
        case Forget(id) => ForgetKeeps(l, st, h, id, st', b);
        case ChargeAll =>
          forall i | 0 <= i < |MaximumCalls(st.inFlight)|
            ensures var m := MaximumCalls(st.inFlight)[i]; m.id in st.inFlight && m == MaximumCall(m.id, st.inFlight[m.id])
          {
            MaximumCallsOnly(st.inFlight, i);
          }
          ChargeAllKeeps(l, st, h.granted, MaximumCalls(st.inFlight), b);
        case ForgetAll => ForgetAllKeeps(l, st, h, st', b);
        case _ =>
      }
    }
  }

  lemma {:induction false} OverrunStable(calls: seq<Call>, granted: map<RequestId, Item>, id: RequestId, item: Item, b: Budget)
    requires id !in Ids(calls)
    ensures Overrun(calls, granted[id := item], b) == Overrun(calls, granted, b)
  {
    if calls != [] {
      assert Last(calls).id in Ids(calls);
      assert forall i | 0 <= i < |Front(calls)| :: Front(calls)[i] == calls[i];
      OverrunStable(Front(calls), granted, id, item, b);
    }
  }

  lemma AccountedWithGrant(l: Ledger, st: State, h: History, id: RequestId, item: Item, h': History)
    requires Accounted(l, st, h) && id !in h.granted && Ids(l.calls) <= h.granted.Keys
    requires item.reservation.cost >= 0.0 && h'.granted == h.granted[id := item]
    ensures Accounted(l, st, h')
  {
    forall b ensures WithinBudget(l, st, h'.granted, b) {
      assert WithinBudget(l, st, h.granted, b);
      OverrunStable(l.calls, h.granted, id, item, b);
    }
  }

  lemma IdsGranted(l: Ledger, st: State, h: History)
    requires Grounded(l, st, h)
    ensures Ids(l.calls) <= h.granted.Keys && st.inFlight.Keys <= h.granted.Keys
  {
    forall id | id in Ids(l.calls) ensures id in h.granted {
      var i :| 0 <= i < |l.calls| && l.calls[i].id == id;
      assert Grants(h.granted, l.calls[i]);
    }
  }

  /** Only a grant changes what was granted. */
  lemma OnlyGrantsGrant(s: System, e: Event)
    requires Linked(s) && Enabled(s, e)
    ensures Step(s, e).history.granted == s.history.granted
            || (e.Reserve? && e.id !in s.history.granted && Step(s, e).history.granted == s.history.granted[e.id := e.item]
                && e.item.reservation.cost >= 0.0)
  {
    if e.Reserve? {
      NonNegativeCost(s.process.settings, e.item.endpoint, e.item.model, e.item.scope, e.item.period,
                      e.item.reservation.inputTokens, e.item.reservation.outputTokens, s.now);
    }
  }

  /** What was on file stays accounted for when the history grows. */
  lemma AccountedLater(s: System, e: Event, l: Ledger, st: State)
    requires Linked(s) && Enabled(s, e) && Accounted(l, st, s.history)
    ensures Accounted(l, st, Step(s, e).history)
  {
    var h, h' := s.history, Step(s, e).history;
    OnlyGrantsGrant(s, e);
    if h'.granted == h.granted {
      forall b ensures WithinBudget(l, st, h'.granted, b) {
        assert WithinBudget(l, st, h.granted, b);
      }
    } else {
      IdsGranted(l, st, h);
      AccountedWithGrant(l, st, h, e.id, e.item, h');
    }
  }

  lemma MoneySafeInitially(s: System)
    requires Initial(s)
    ensures MoneySafe(s)
  {
    LinkedInitially(s);
    forall b ensures WithinBudget(s.ledger, s.state, s.history.granted, b) {
      assert Limit(s.ledger.guard, b) >= 0.0;
    }
  }

  lemma MoneySafeStep(s: System, e: Event)
    requires MoneySafe(s) && Enabled(s, e)
    ensures MoneySafe(Step(s, e))
  {
    LinkedStep(s, e);
    var t := Step(s, e);
    assert View(s, s.ledger, s.state);
    forall l', st' | View(t, l', st') ensures Accounted(l', st', t.history) {
      var l, st, c1, lm, stm, c2 := StepView(s, e, l', st');
      AccountedLater(s, e, l, st);
      if c1.Admit? {
        GroundedAfter(l, st, c1, lm, stm, t.history);
        forall b ensures WithinBudget(lm, stm, t.history.granted, b) {
          AdmitKeeps(s.process.settings, l, st, t.history, c1.id, c1.item, stm, b);
        }
      } else {
        AccountedAfter(l, st, c1, lm, stm, t.history);
      }
      AccountedAfter(lm, stm, c2, l', st', t.history);
    }
  }

  lemma {:induction false} MoneySafeAlways(s: System, es: seq<Event>, t: System)
    requires MoneySafe(s) && Run(s, es, t)
    ensures MoneySafe(t)
    decreases |es|
  {
    if es != [] {
      MoneySafeStep(s, es[0]);
      MoneySafeAlways(Step(s, es[0]), es[1..], t);
    }
  }

  /** On every reachable pair of files: the running total is the initial spend plus all call costs, and for
      all traffic as for each (scope, period), spent plus pending is within the ceiling plus recorded overruns,
      plus what crashes made the ledger charge twice, plus the pending reservations already charged. */
  lemma SpendStaysWithinLimits(s: System, b: Budget)
    requires Reachable(s)
    ensures s.ledger.spent == s.ledger.initial + Charged(s.ledger.calls, Everything)
    ensures Base(s.ledger, b) + Charged(s.ledger.calls, b) + BudgetSpec.Pending(s.state.inFlight, b)
            <= Limit(s.ledger.guard, b) + Overrun(s.ledger.calls, s.history.granted, b)
               + ChargedTwice(s.ledger.calls, b) + Exposed(s.ledger, s.state, b)
  {
    var s0, es :| Initial(s0) && Run(s0, es, s);
    MoneySafeInitially(s0);
    MoneySafeAlways(s0, es, s);
    assert View(s, s.ledger, s.state);
    assert WithinBudget(s.ledger, s.state, s.history.granted, b);
  }

  /** Without overruns and without a request on file twice, the ceilings are never crossed at all. */
  lemma CleanRunsRespectLimits(s: System, b: Budget)
    requires Reachable(s)
    requires forall i | 0 <= i < |s.ledger.calls| ::
               && s.ledger.calls[i].id in s.history.granted
               && s.ledger.calls[i].cost <= s.history.granted[s.ledger.calls[i].id].reservation.cost
    requires forall i, j | 0 <= i < j < |s.ledger.calls| :: s.ledger.calls[i].id != s.ledger.calls[j].id
    requires s.state.inFlight.Keys !! Ids(s.ledger.calls)
    ensures Base(s.ledger, b) + Charged(s.ledger.calls, b) + BudgetSpec.Pending(s.state.inFlight, b) <= Limit(s.ledger.guard, b)
  {
    SpendStaysWithinLimits(s, b);
    assert s.ledger.calls[..|s.ledger.calls|] == s.ledger.calls;
    NoSlack(s, |s.ledger.calls|, b);
    SumMapZero(s.state.inFlight, ExposedWeight(Ids(s.ledger.calls), b));
  }

  lemma {:induction false} NoSlack(s: System, n: nat, b: Budget)
    requires n <= |s.ledger.calls|
    requires forall i | 0 <= i < |s.ledger.calls| ::
               && s.ledger.calls[i].id in s.history.granted
               && s.ledger.calls[i].cost <= s.history.granted[s.ledger.calls[i].id].reservation.cost
    requires forall i, j | 0 <= i < j < |s.ledger.calls| :: s.ledger.calls[i].id != s.ledger.calls[j].id
    ensures Overrun(s.ledger.calls[..n], s.history.granted, b) == 0.0 && ChargedTwice(s.ledger.calls[..n], b) == 0.0
  {
    if n > 0 {
      var calls := s.ledger.calls[..n];
      assert Front(calls) == s.ledger.calls[..n - 1] && Last(calls) == s.ledger.calls[n - 1];
      NoSlack(s, n - 1, b);
    }
  }

  // ---------------------------------------------------------------- the ceilings in the configuration's terms

  /** Every grant is tagged with where its endpoint counts. */
  ghost predicate TaggedGrants(s: System) {
    TaggedItems(s.history.granted)
  }

  lemma {:induction false} GrantsAreTagged(s: System, es: seq<Event>, t: System)
    requires Linked(s) && TaggedGrants(s) && Run(s, es, t)
    ensures TaggedGrants(t)
    decreases |es|
  {
    if es != [] {
      var e := es[0];
      OnlyGrantsGrant(s, e);
      LinkedStep(s, e);
      if e.Reserve? {
        var month :| (e.item.scope, e.item.period) == ScopeFor(s.process.settings, e.item.endpoint, month);
        ScopesAreTagged(s.process.settings, e.item.endpoint, month);
      }
      GrantsAreTagged(Step(s, e), es[1..], t);
    }
  }

  lemma FilesAreTagged(s: System)
    requires Reachable(s)
    ensures TaggedCalls(s.ledger.calls) && TaggedItems(s.state.inFlight)
  {
    var s0, es :| Initial(s0) && Run(s0, es, s);
    MoneySafeInitially(s0);
    MoneySafeAlways(s0, es, s);
    GrantsAreTagged(s0, es, s);
    assert View(s, s.ledger, s.state);
    assert Grounded(s.ledger, s.state, s.history);
    forall i | 0 <= i < |s.ledger.calls| ensures Tagged(s.ledger.calls[i].endpoint, s.ledger.calls[i].scope, s.ledger.calls[i].period) {
      assert Grants(s.history.granted, s.ledger.calls[i]);
    }
  }

  /** Charged more than it had reserved. */
  ghost predicate NoOverrun(s: System) {
    forall i | 0 <= i < |s.ledger.calls| ::
      && s.ledger.calls[i].id in s.history.granted
      && s.ledger.calls[i].cost <= s.history.granted[s.ledger.calls[i].id].reservation.cost
  }

  ghost predicate OnFileOnce(s: System) {
    && (forall i, j | 0 <= i < j < |s.ledger.calls| :: s.ledger.calls[i].id != s.ledger.calls[j].id)
    && s.state.inFlight.Keys !! Ids(s.ledger.calls)
  }

  /**
   * In every reachable pair of files without overruns and without a request on file twice: the embeddings of each month stay
   * within the Qwen limit, the chat requests of each month within the monthly limit, all backfill chat requests together
   * within the backfill limit, and everything within the total limit less the margin; the running total is exact.
   */
  lemma ConfiguredCeilingsHold(s: System, month: nat)
    requires Reachable(s) && NoOverrun(s) && OnFileOnce(s)
    ensures EmbeddingCost(s.ledger.calls, month) + EmbeddingHeld(s.state.inFlight, month) <= s.ledger.guard.qwenLimit
    ensures ChatCost(s.ledger.calls, Month(month)) + ChatHeld(s.state.inFlight, Month(month)) <= s.ledger.guard.monthlyLimit
    ensures ChatCost(s.ledger.calls, AllTime) + ChatHeld(s.state.inFlight, AllTime) <= s.ledger.guard.backfillLimit
    ensures s.ledger.spent + TotalHeld(s.state.inFlight) <= s.ledger.guard.totalLimit - s.ledger.guard.safetyMargin
    ensures s.ledger.spent == s.ledger.initial + TotalCost(s.ledger.calls)
  {
    FilesAreTagged(s);
    ChargedByEndpoint(s.ledger.calls, month);
    HeldByEndpoint(s.state.inFlight, month);
    CleanRunsRespectLimits(s, Only(QwenMonthly, Month(month)));
    CleanRunsRespectLimits(s, Only(HindsightMonthly, Month(month)));
    CleanRunsRespectLimits(s, Only(HindsightBackfill, AllTime));
    CleanRunsRespectLimits(s, Everything);
    SpendStaysWithinLimits(s, Everything);
  }

  /** In every reachable pair of files at all, with what overruns added and what a crash charged or still shows twice. */
  lemma CeilingsHoldButForOverruns(s: System, month: nat)
    requires Reachable(s)
    ensures EmbeddingCost(s.ledger.calls, month) + EmbeddingHeld(s.state.inFlight, month)
            <= s.ledger.guard.qwenLimit + Slack(s, Only(QwenMonthly, Month(month)))
    ensures ChatCost(s.ledger.calls, Month(month)) + ChatHeld(s.state.inFlight, Month(month))
            <= s.ledger.guard.monthlyLimit + Slack(s, Only(HindsightMonthly, Month(month)))
    ensures ChatCost(s.ledger.calls, AllTime) + ChatHeld(s.state.inFlight, AllTime)
            <= s.ledger.guard.backfillLimit + Slack(s, Only(HindsightBackfill, AllTime))
    ensures s.ledger.spent + TotalHeld(s.state.inFlight)
            <= s.ledger.guard.totalLimit - s.ledger.guard.safetyMargin + Slack(s, Everything)
  {
    FilesAreTagged(s);
    ChargedByEndpoint(s.ledger.calls, month);
    HeldByEndpoint(s.state.inFlight, month);
    SpendStaysWithinLimits(s, Only(QwenMonthly, Month(month)));
    SpendStaysWithinLimits(s, Only(HindsightMonthly, Month(month)));
    SpendStaysWithinLimits(s, Only(HindsightBackfill, AllTime));
    SpendStaysWithinLimits(s, Everything);
  }

  ghost function Slack(s: System, b: Budget): real {
    Overrun(s.ledger.calls, s.history.granted, b) + ChargedTwice(s.ledger.calls, b) + Exposed(s.ledger, s.state, b)
  }
}
