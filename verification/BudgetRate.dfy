/** The rolling rate limit over whole runs, with a monotone clock: every window of sixty seconds holds at
    most rpm admissions that survive on file, using at most tpm tokens. */
module BudgetRate {
  import opened Sums
  import opened BudgetSpec
  import opened BudgetSystem
  import opened BudgetMoney

  /** Tokens a request accounts for: those reported for it, or those reserved. */
  function Used(h: History, id: RequestId): int {
    if id in h.reported then h.reported[id] else if id in h.granted then h.granted[id].Tokens() else 0
  }

  /** Surviving admissions that started in [t, t + 60). */
  function Window(l: Ledger, st: State, h: History, t: real): set<RequestId> {
    set id | id in Ids(l.calls) + st.inFlight.Keys && id in h.granted && t <= h.granted[id].startedAt < t + WINDOW
  }

  ghost function UsedBy(h: History, ids: set<RequestId>): map<RequestId, real> {
    map id | id in ids :: Used(h, id) as real
  }

  ghost predicate WithinRate(l: Ledger, st: State, h: History, rpm: nat, tpm: nat) {
    forall t ::
      && |Window(l, st, h, t)| <= rpm
      && SumMap(UsedBy(h, Window(l, st, h, t)), Amount()) <= tpm as real
  }

  ghost predicate Metered(l: Ledger, h: History) {
    forall i | 0 <= i < |l.calls| :: Used(h, l.calls[i].id) <= l.calls[i].inputTokens + l.calls[i].outputTokens
  }

  ghost predicate ReportsSane(h: History) {
    forall id | id in h.reported :: id in h.granted && 0 <= h.reported[id] <= h.granted[id].Tokens()
  }

  ghost predicate RateSafe(s: System, rpm: nat, tpm: nat) {
    && MoneySafe(s) && ReportsSane(s.history)
    && (forall id | id in s.history.granted :: s.history.granted[id].startedAt <= s.now)
    && (s.process.Proxy? ==> s.process.owned !! s.history.reported.Keys)
    && (s.process.Proxy? ==> s.process.settings.rpmLimit <= rpm && s.process.settings.tpmLimit <= tpm)
    && forall l, st | View(s, l, st) :: Metered(l, s.history) && WithinRate(l, st, s.history, rpm, tpm)
  }

  /** The hypotheses on a run: the configured limits never exceed rpm and tpm, and the provider never reports
      more tokens than were reserved, nor a negative number. */
  ghost predicate Tame(s: System, e: Event, rpm: nat, tpm: nat) {
    && (e.Launch? ==> e.settings.rpmLimit <= rpm && e.settings.tpmLimit <= tpm)
    && (e.Finish? && Idle(s) && e.outcome.Answered? && e.outcome.status < 400 && e.outcome.usage.Some? && e.id in s.process.state.inFlight ==>
          var item := s.process.state.inFlight[e.id];
          0 <= Reported(s.process.ledger.guard, e.id, item, e.outcome.usage.value) <= item.Tokens())
  }

  // ---------------------------------------------------------------- smaller windows

  lemma {:induction false} SubsetSum(h: History, small: set<RequestId>, large: set<RequestId>)
    requires small <= large && ReportsSane(h)
    ensures |small| <= |large|
    ensures SumMap(UsedBy(h, small), Amount()) <= SumMap(UsedBy(h, large), Amount())
  {
    assert large == small + (large - small);
    PendingDominates(UsedBy(h, small), UsedBy(h, large), Amount());
  }

  /** Fewer surviving requests and smaller reports keep every window within its limits. */
  lemma ShrinkKeeps(l: Ledger, st: State, h: History, l': Ledger, st': State, h': History, rpm: nat, tpm: nat)
    requires WithinRate(l, st, h, rpm, tpm) && ReportsSane(h) && ReportsSane(h')
    requires Ids(l'.calls) + st'.inFlight.Keys <= Ids(l.calls) + st.inFlight.Keys <= h.granted.Keys
    requires forall id | id in h.granted :: id in h'.granted && h'.granted[id] == h.granted[id] && Used(h', id) <= Used(h, id)
    ensures WithinRate(l', st', h', rpm, tpm)
  {
    forall t
      ensures |Window(l', st', h', t)| <= rpm && SumMap(UsedBy(h', Window(l', st', h', t)), Amount()) <= tpm as real
    {
      var small, large := Window(l', st', h', t), Window(l, st, h, t);
      assert |large| <= rpm && SumMap(UsedBy(h, large), Amount()) <= tpm as real;
      assert small <= large;
      SubsetSum(h, small, large);
      PendingDominates(UsedBy(h', small), UsedBy(h, small), Amount());
    }
  }

  // ---------------------------------------------------------------- one more admission

  ghost function Ones(ids: set<RequestId>): map<RequestId, real> {
    map id | id in ids :: 1.0
  }

  lemma {:induction false} SumOnes(ids: set<RequestId>)
    ensures SumMap(Ones(ids), Amount()) == |ids| as real
    decreases |ids|
  {
    if ids == {} {
      assert Ones(ids) == map[];
    } else {
      var id :| id in ids;
      SumMapRemove(Ones(ids), Amount(), id);
      assert Ones(ids) - {id} == Ones(ids - {id});
      SumOnes(ids - {id});
    }
  }

  ghost function RecentOne(now: real): Call -> real {
    (c: Call) => if Recent(c.startedAt, now) then 1.0 else 0.0
  }

  ghost function RecentUse(now: real): Call -> real {
    (c: Call) => if Recent(c.startedAt, now) then (c.inputTokens + c.outputTokens) as real else 0.0
  }

  lemma {:induction false} RecentCallsAreSums(calls: seq<Call>, now: real)
    ensures SumCalls(calls, RecentOne(now)) == RecentCalls(calls, now) as real
    ensures SumCalls(calls, RecentUse(now)) == RecentCallTokens(calls, now) as real
  {
    if calls != [] { RecentCallsAreSums(Front(calls), now); }
  }

  ghost function RecentItemOne(now: real): (RequestId, Item) -> real {
    (id: RequestId, i: Item) => if Recent(i.startedAt, now) then 1.0 else 0.0
  }

  lemma RecentItemsRemove(m: map<RequestId, Item>, id: RequestId, now: real)
    requires id in m
    ensures |m - {id}| < |m|
    ensures |RecentItems(m, now)| == |RecentItems(m - {id}, now)| + if Recent(m[id].startedAt, now) then 1 else 0
  {
    assert (m - {id}).Keys == m.Keys - {id};
    assert RecentItems(m - {id}, now) == RecentItems(m, now) - {id};
  }

  lemma {:induction false} RecentItemsAreSum(m: map<RequestId, Item>, now: real)
    ensures SumMap(m, RecentItemOne(now)) == |RecentItems(m, now)| as real
    decreases |m|
  {
    if m == map[] {
      assert RecentItems(m, now) == {};
    } else {
      var id :| id in m;
      SumMapRemove(m, RecentItemOne(now), id);
      RecentItemsRemove(m, id, now);
      RecentItemsAreSum(m - {id}, now);
    }
  }

  /** Surviving admissions of the last window before now. */
  ghost predicate RecentSurvivors(l: Ledger, st: State, h: History, ids: set<RequestId>, now: real) {
    && ids <= Ids(l.calls) + st.inFlight.Keys
    && forall id | id in ids :: id in h.granted && Recent(h.granted[id].startedAt, now)
  }

  /** What the delay computation counts covers every surviving admission of the last window. */
  lemma RecentCountCovers(l: Ledger, st: State, h: History, ids: set<RequestId>, now: real)
    requires Grounded(l, st, h) && RecentSurvivors(l, st, h, ids, now)
    ensures |ids| <= RecentCount(l, st, now)
  {
    RecentCallsAreSums(l.calls, now);
    RecentItemsAreSum(st.inFlight, now);
    SumOnes(ids);
    forall i | 0 <= i < |l.calls| && l.calls[i].id in Ones(ids) ensures 1.0 <= RecentOne(now)(l.calls[i]) {
      assert Grants(h.granted, l.calls[i]);
    }
    FilesDominate(Ones(ids), l.calls, RecentOne(now), st.inFlight, RecentItemOne(now));
  }

  /** So do the tokens it adds up. */
  lemma RecentTokensCover(l: Ledger, st: State, h: History, ids: set<RequestId>, now: real)
    requires Grounded(l, st, h) && Metered(l, h) && ReportsSane(h) && RecentSurvivors(l, st, h, ids, now)
    ensures SumMap(UsedBy(h, ids), Amount()) <= RecentTokens(l, st, now)
  {
    RecentCallsAreSums(l.calls, now);
    forall i | 0 <= i < |l.calls|
      ensures RecentUse(now)(l.calls[i]) >= 0.0
      ensures l.calls[i].id in ids ==> UsedBy(h, ids)[l.calls[i].id] <= RecentUse(now)(l.calls[i])
    {
      assert Grants(h.granted, l.calls[i]);
      assert 0 <= Used(h, l.calls[i].id) <= l.calls[i].inputTokens + l.calls[i].outputTokens;
    }
    FilesDominate(UsedBy(h, ids), l.calls, RecentUse(now), st.inFlight, TokenWeight(now));
  }

  lemma GrantMeansRoom(s: Settings, l: Ledger, st: State, item: Item)
    requires Decide(s, l, st, item) == Grant
    ensures RecentCount(l, st, item.startedAt) < s.rpmLimit
    ensures RecentTokens(l, st, item.startedAt) + item.Tokens() as real <= s.tpmLimit as real
  {
    assert !RateBlocked(s, l, st, item.Tokens(), item.startedAt);
  }

  lemma WindowGrows(l: Ledger, st: State, h: History, id: RequestId, item: Item, st': State, t: real)
    requires Changes(l, st, Admit(id, item), l, st', h)
    ensures Window(l, st', h, t) ==
            Window(l, st, h, t) + if t <= item.startedAt < t + WINDOW then {id} else {}
    ensures id !in Window(l, st, h, t)
  {
  }

  lemma OneMoreUse(h: History, ids: set<RequestId>, id: RequestId)
    requires id !in ids
    ensures SumMap(UsedBy(h, ids + {id}), Amount()) == SumMap(UsedBy(h, ids), Amount()) + Used(h, id) as real
  {
    SumMapInsert(UsedBy(h, ids), Amount(), id, Used(h, id) as real);
    assert UsedBy(h, ids + {id}) == UsedBy(h, ids)[id := Used(h, id) as real];
  }

  lemma AdmitWithinWindow(s: Settings, l: Ledger, st: State, h: History, id: RequestId, item: Item, st': State, t: real)
    requires Grounded(l, st, h) && Metered(l, h) && ReportsSane(h)
    requires forall k | k in h.granted :: h.granted[k].startedAt <= item.startedAt
    requires Decide(s, l, st, item) == Grant
    requires Changes(l, st, Admit(id, item), l, st', h) && id !in h.reported
    ensures var before, after := Window(l, st, h, t), Window(l, st', h, t);
            || after == before
            || (|after| <= s.rpmLimit && SumMap(UsedBy(h, after), Amount()) <= s.tpmLimit as real)
  {
    var now := item.startedAt;
    var before := Window(l, st, h, t);
    WindowGrows(l, st, h, id, item, st', t);
    if t <= now < t + WINDOW {
      assert RecentSurvivors(l, st, h, before, now);
      RecentCountCovers(l, st, h, before, now);
      RecentTokensCover(l, st, h, before, now);
      GrantMeansRoom(s, l, st, item);
      OneMoreUse(h, before, id);
    }
  }

  lemma AdmitWithinRate(s: Settings, l: Ledger, st: State, h: History, id: RequestId, item: Item, st': State, rpm: nat, tpm: nat)
    requires Grounded(l, st, h) && Metered(l, h) && ReportsSane(h) && WithinRate(l, st, h, rpm, tpm)
    requires forall k | k in h.granted :: h.granted[k].startedAt <= item.startedAt
    requires s.rpmLimit <= rpm && s.tpmLimit <= tpm && Decide(s, l, st, item) == Grant
    requires Changes(l, st, Admit(id, item), l, st', h) && id !in h.reported
    ensures WithinRate(l, st', h, rpm, tpm)
  {
    forall t
      ensures |Window(l, st', h, t)| <= rpm && SumMap(UsedBy(h, Window(l, st', h, t)), Amount()) <= tpm as real
    {
      AdmitWithinWindow(s, l, st, h, id, item, st', t);
      assert |Window(l, st, h, t)| <= rpm && SumMap(UsedBy(h, Window(l, st, h, t)), Amount()) <= tpm as real;
    }
  }

  // ---------------------------------------------------------------- every run

  lemma RateSafeInitially(s: System, rpm: nat, tpm: nat)
    requires Initial(s)
    ensures RateSafe(s, rpm, tpm)
  {
    MoneySafeInitially(s);
    forall t ensures |Window(s.ledger, s.state, s.history, t)| <= rpm
             ensures SumMap(UsedBy(s.history, Window(s.ledger, s.state, s.history, t)), Amount()) <= tpm as real {
      assert Window(s.ledger, s.state, s.history, t) == {};
      assert UsedBy(s.history, {}) == map[];
    }
  }

  lemma MeteredAfter(l: Ledger, st: State, c: Change, l': Ledger, st': State, h: History)
    requires Grounded(l, st, h) && Metered(l, h) && ReportsSane(h) && Changes(l, st, c, l', st', h)
    requires c.Record? ==> Used(h, c.call.id) <= c.call.inputTokens + c.call.outputTokens
    ensures Metered(l', h)
  {
    if c.ChargeAll? {
      forall i | |l.calls| <= i < |l'.calls|
        ensures Used(h, l'.calls[i].id) <= l'.calls[i].inputTokens + l'.calls[i].outputTokens
      {
        MaximumCallsOnly(st.inFlight, i - |l.calls|);
      }
    }
  }

  /** Grants only add to the history, outcomes are handled by ReportLater, nothing else touches grants or reports. */
  lemma HistoryLater(s: System, e: Event)
    requires Enabled(s, e) && !e.Finish?
    ensures var h, h' := s.history, Step(s, e).history;
            && h'.reported == h.reported
            && (h'.granted == h.granted || (e.Reserve? && e.id !in h.granted && h'.granted == h.granted[e.id := e.item]
                                            && e.item.startedAt == s.now == Step(s, e).now))
  {
  }

  lemma RateLater(s: System, e: Event, rpm: nat, tpm: nat)
    requires RateSafe(s, rpm, tpm) && Enabled(s, e) && Tame(s, e, rpm, tpm)
    ensures ReportsSane(Step(s, e).history)
    ensures forall id | id in s.history.granted ::
              && id in Step(s, e).history.granted && Step(s, e).history.granted[id] == s.history.granted[id]
              && Used(Step(s, e).history, id) <= Used(s.history, id)
    ensures forall id | id in Step(s, e).history.granted :: Step(s, e).history.granted[id].startedAt <= Step(s, e).now
  {
    if e.Finish? {
      ReportLater(s, e.id, e.outcome, rpm, tpm);
    } else {
      HistoryLater(s, e);
    }
  }

  lemma ReportLater(s: System, id: RequestId, outcome: Outcome, rpm: nat, tpm: nat)
    requires RateSafe(s, rpm, tpm) && Enabled(s, Finish(id, outcome)) && Tame(s, Finish(id, outcome), rpm, tpm)
    ensures var t := Settled(s, id, outcome);
            && t.history.granted == s.history.granted && ReportsSane(t.history)
            && (forall k | k in s.history.granted :: Used(t.history, k) <= Used(s.history, k))
  {
    assert View(s, s.ledger, s.state);
    assert Grounded(s.ledger, s.state, s.history);
    assert s.process.state == s.state && id in s.state.inFlight;
    assert s.state.inFlight[id] == s.history.granted[id];
    assert id !in s.history.reported;
  }

  lemma SurvivorsShrink(l: Ledger, st: State, c: Change, l': Ledger, st': State, h: History)
    requires Changes(l, st, c, l', st', h) && !c.Admit?
    ensures Ids(l'.calls) + st'.inFlight.Keys <= Ids(l.calls) + st.inFlight.Keys
  {
    match c
    case Record(call) => AppendIds(l.calls, call);
    case ChargeAll => MaximumCallsCharge(st.inFlight, l.calls);
    case _ =>
  }

  lemma RateAfter(l: Ledger, st: State, c: Change, l': Ledger, st': State, h: History, rpm: nat, tpm: nat)
    requires Grounded(l, st, h) && Metered(l, h) && ReportsSane(h) && WithinRate(l, st, h, rpm, tpm)
    requires Changes(l, st, c, l', st', h) && !c.Admit?
    requires c.Record? ==> Used(h, c.call.id) <= c.call.inputTokens + c.call.outputTokens
    ensures Grounded(l', st', h) && Metered(l', h) && WithinRate(l', st', h, rpm, tpm)
  {
    GroundedAfter(l, st, c, l', st', h);
    MeteredAfter(l, st, c, l', st', h);
    SurvivorsShrink(l, st, c, l', st', h);
    IdsGranted(l, st, h);
    ShrinkKeeps(l, st, h, l', st', h, rpm, tpm);
  }

  ghost predicate RateKept(l: Ledger, st: State, h: History, rpm: nat, tpm: nat) {
    Grounded(l, st, h) && Metered(l, h) && WithinRate(l, st, h, rpm, tpm)
  }

  /** The step's new history does not disturb a pair that was fine before. */
  lemma RateKeptLater(s: System, e: Event, l: Ledger, st: State, rpm: nat, tpm: nat)
    requires RateSafe(s, rpm, tpm) && Enabled(s, e) && Tame(s, e, rpm, tpm) && View(s, l, st)
    ensures RateKept(l, st, Step(s, e).history, rpm, tpm)
  {
    var h := Step(s, e).history;
    assert Accounted(l, st, s.history) && Metered(l, s.history) && WithinRate(l, st, s.history, rpm, tpm);
    RateLater(s, e, rpm, tpm);
    IdsGranted(l, st, s.history);
    ShrinkKeeps(l, st, s.history, l, st, h, rpm, tpm);
    forall i | 0 <= i < |l.calls| ensures Used(h, l.calls[i].id) <= l.calls[i].inputTokens + l.calls[i].outputTokens {
      assert Grants(s.history.granted, l.calls[i]);
    }
    AccountedLater(s, e, l, st);
  }

  lemma RateKeptAfter(s: System, e: Event, l: Ledger, st: State, c: Change, l': Ledger, st': State, rpm: nat, tpm: nat)
    requires RateSafe(s, rpm, tpm) && Enabled(s, e) && Tame(s, e, rpm, tpm)
    requires RateKept(l, st, Step(s, e).history, rpm, tpm) && Changes(l, st, c, l', st', Step(s, e).history)
    requires c.Record? ==> Used(Step(s, e).history, c.call.id) <= c.call.inputTokens + c.call.outputTokens
    requires c.Admit? ==> e == Reserve(c.id, c.item) && l == s.ledger && st == s.state
                          && Decide(s.process.settings, l, st, c.item) == Grant
    ensures RateKept(l', st', Step(s, e).history, rpm, tpm)
  {
    RateLater(s, e, rpm, tpm);
    if c.Admit? {
      GroundedAfter(l, st, c, l', st', Step(s, e).history);
      AdmitWithinRate(s.process.settings, l, st, Step(s, e).history, c.id, c.item, st', rpm, tpm);
    } else {
      RateAfter(l, st, c, l', st', Step(s, e).history, rpm, tpm);
    }
  }

  lemma RateKeptInView(s: System, e: Event, l': Ledger, st': State, rpm: nat, tpm: nat)
    requires RateSafe(s, rpm, tpm) && Enabled(s, e) && Tame(s, e, rpm, tpm) && View(Step(s, e), l', st')
    ensures RateKept(l', st', Step(s, e).history, rpm, tpm)
  {
    assert Grounded(s.ledger, s.state, s.history) by {
      assert View(s, s.ledger, s.state);
    }
    var l, st, c1, lm, stm, c2 := StepView(s, e, l', st');
    RateKeptLater(s, e, l, st, rpm, tpm);
    RateKeptAfter(s, e, l, st, c1, lm, stm, rpm, tpm);
    RateKeptAfter(s, e, lm, stm, c2, l', st', rpm, tpm);
  }

  lemma ThreadsUnreported(s: System, e: Event, rpm: nat, tpm: nat)
    requires RateSafe(s, rpm, tpm) && Enabled(s, e) && Tame(s, e, rpm, tpm)
    ensures var t := Step(s, e);
            t.process.Proxy? ==>
              && t.process.owned !! t.history.reported.Keys
              && t.process.settings.rpmLimit <= rpm && t.process.settings.tpmLimit <= tpm
  {
  }

  lemma RateSafeStep(s: System, e: Event, rpm: nat, tpm: nat)
    requires RateSafe(s, rpm, tpm) && Enabled(s, e) && Tame(s, e, rpm, tpm)
    ensures RateSafe(Step(s, e), rpm, tpm)
  {
    MoneySafeStep(s, e);
    RateLater(s, e, rpm, tpm);
    ThreadsUnreported(s, e, rpm, tpm);
    var t := Step(s, e);
    forall l', st' | View(t, l', st') ensures Metered(l', t.history) && WithinRate(l', st', t.history, rpm, tpm) {
      RateKeptInView(s, e, l', st', rpm, tpm);
    }
  }

  ghost predicate TameRun(s: System, es: seq<Event>, rpm: nat, tpm: nat)
    decreases |es|
  {
    es == [] || (Enabled(s, es[0]) && Tame(s, es[0], rpm, tpm) && TameRun(Step(s, es[0]), es[1..], rpm, tpm))
  }

  lemma {:induction false} RateSafeAlways(s: System, es: seq<Event>, t: System, rpm: nat, tpm: nat)
    requires RateSafe(s, rpm, tpm) && Run(s, es, t) && TameRun(s, es, rpm, tpm)
    ensures RateSafe(t, rpm, tpm)
    decreases |es|
  {
    if es != [] {
      RateSafeStep(s, es[0], rpm, tpm);
      RateSafeAlways(Step(s, es[0]), es[1..], t, rpm, tpm);
    }
  }

  /** Any sixty-second window of the whole run, not only the current one. */
  lemma EveryWindowWithinLimits(s0: System, es: seq<Event>, s: System, rpm: nat, tpm: nat, t: real)
    requires Initial(s0) && Run(s0, es, s) && TameRun(s0, es, rpm, tpm)
    ensures var window := set id | id in Ids(s.ledger.calls) + s.state.inFlight.Keys && id in s.history.granted
                                   && t <= s.history.granted[id].startedAt < t + 60.0;
            |window| <= rpm && SumMap(UsedBy(s.history, window), Amount()) <= tpm as real
  {
    RateSafeInitially(s0, rpm, tpm);
    RateSafeAlways(s0, es, s, rpm, tpm);
    assert View(s, s.ledger, s.state);
    assert Window(s.ledger, s.state, s.history, t) == set id | id in Ids(s.ledger.calls) + s.state.inFlight.Keys && id in s.history.granted
                                                               && t <= s.history.granted[id].startedAt < t + 60.0;
  }
}
