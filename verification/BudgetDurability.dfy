/** No crash loses a charge: what was sent stays on file until it is charged, and an ambiguous request
    is charged at its maximum before anything else is let through. */
module BudgetDurability {
  import opened Options
  import opened Sums
  import opened BudgetSpec
  import opened BudgetSystem
  import opened BudgetMoney
  import opened BudgetScenario

  ghost predicate OnFile(l: Ledger, st: State, id: RequestId) {
    id in st.inFlight || id in Ids(l.calls)
  }

  ghost predicate Kept(l: Ledger, st: State, h: History) {
    && (forall id | id in h.sent :: id in h.granted && OnFile(l, st, id))
    && (forall id | id in h.ambiguous ::
          id in h.granted && (id in st.inFlight || ChargedAtMaximum(l.calls, id, h.granted[id])))
  }

  ghost predicate Durable(s: System) {
    MoneySafe(s) && forall l, st | View(s, l, st) :: Kept(l, st, s.history)
  }

  lemma CallsOnlyGrow(calls: seq<Call>, more: seq<Call>, id: RequestId, item: Item)
    ensures id in Ids(calls) ==> id in Ids(calls + more)
    ensures ChargedAtMaximum(calls, id, item) ==> ChargedAtMaximum(calls + more, id, item)
  {
    if id in Ids(calls) {
      var i :| 0 <= i < |calls| && calls[i].id == id;
      assert (calls + more)[i].id == id;
    }
    if ChargedAtMaximum(calls, id, item) {
      var i :| 0 <= i < |calls| && calls[i] == MaximumCall(id, item);
      assert (calls + more)[i] == MaximumCall(id, item);
    }
  }

  lemma ChargedIsListed(calls: seq<Call>, id: RequestId, item: Item)
    requires ChargedAtMaximum(calls, id, item)
    ensures id in Ids(calls)
  {
    var i :| 0 <= i < |calls| && calls[i] == MaximumCall(id, item);
    assert calls[i].id == id;
  }

  lemma KeptAfter(l: Ledger, st: State, c: Change, l': Ledger, st': State, h: History)
    requires Grounded(l, st, h) && Kept(l, st, h) && Changes(l, st, c, l', st', h)
    ensures Kept(l', st', h)
  {
    var more := match c case Record(call) => [call] case ChargeAll => MaximumCalls(st.inFlight) case _ => [];
    assert l'.calls == l.calls + more;
    forall id | id in h.sent ensures OnFile(l', st', id) {
      assert OnFile(l, st, id);
      if id in st.inFlight && c.ForgetAll? {
        ChargedIsListed(l.calls, id, st.inFlight[id]);
      }
      CallsOnlyGrow(l.calls, more, id, h.granted[id]);
    }
    forall id | id in h.ambiguous
      ensures id in st'.inFlight || ChargedAtMaximum(l'.calls, id, h.granted[id])
    {
      CallsOnlyGrow(l.calls, more, id, h.granted[id]);
    }
  }

  lemma KeptLater(s: System, e: Event, l: Ledger, st: State)
    requires Linked(s) && Enabled(s, e) && !e.Crash?
    requires View(s, l, st) && Kept(l, st, s.history)
    ensures Kept(l, st, Step(s, e).history)
  {
    var h, h' := s.history, Step(s, e).history;
    forall id | id in h'.sent ensures id in h'.granted && OnFile(l, st, id) {
      if id in h.sent { assert OnFile(l, st, id); }
    }
  }

  lemma DurableInitially(s: System)
    requires Initial(s)
    ensures Durable(s)
  {
    MoneySafeInitially(s);
  }

  lemma DurableStep(s: System, e: Event)
    requires Durable(s) && Enabled(s, e)
    ensures Durable(Step(s, e))
  {
    MoneySafeStep(s, e);
    LinkedStep(s, e);
    var t := Step(s, e);
    assert View(s, s.ledger, s.state);
    forall l', st' | View(t, l', st') ensures Kept(l', st', t.history) {
      if e.Crash? {
        assert Kept(s.ledger, s.state, s.history);
      } else {
        var l, st, c1, lm, stm, c2 := StepView(s, e, l', st');
        KeptLater(s, e, l, st);
        AccountedLater(s, e, l, st);
        KeptAfter(l, st, c1, lm, stm, t.history);
        GroundedAfter(l, st, c1, lm, stm, t.history);
        KeptAfter(lm, stm, c2, l', st', t.history);
      }
    }
  }

  lemma {:induction false} DurableAlways(s: System, es: seq<Event>, t: System)
    requires Durable(s) && Run(s, es, t)
    ensures Durable(t)
    decreases |es|
  {
    if es != [] {
      DurableStep(s, es[0]);
      DurableAlways(Step(s, es[0]), es[1..], t);
    }
  }

  lemma ReachableIsDurable(s: System)
    requires Reachable(s)
    ensures Durable(s)
  {
    var s0, es :| Initial(s0) && Run(s0, es, s);
    DurableInitially(s0);
    DurableAlways(s0, es, s);
  }

  lemma SentOnFile(s: System, id: RequestId)
    requires Reachable(s) && id in s.history.sent
    ensures OnFile(s.ledger, s.state, id)
  {
    ReachableIsDurable(s);
    assert View(s, s.ledger, s.state);
    assert OnFile(s.ledger, s.state, id);
  }

  /** No answer with an error status came for this request. */
  predicate NotRejected(es: seq<Event>, id: RequestId) {
    forall i | 0 <= i < |es| && es[i].Finish? && es[i].id == id :: es[i].outcome.NoAnswer? || es[i].outcome.status < 400
  }

  lemma {:induction false} SentStays(s: System, es: seq<Event>, t: System, id: RequestId)
    requires Run(s, es, t) && NotRejected(es, id)
    requires id in s.history.sent || exists i :: 0 <= i < |es| && es[i].Send? && es[i].id == id
    ensures id in t.history.sent
    decreases |es|
  {
    if es != [] {
      var u, rest := Step(s, es[0]), es[1..];
      assert forall i | 0 <= i < |rest| :: rest[i] == es[i + 1];
      if id !in s.history.sent {
        var i :| 0 <= i < |es| && es[i].Send? && es[i].id == id;
        assert i == 0 || rest[i - 1] == es[i];
      }
      assert es[0].Finish? && es[0].id == id ==> es[0].outcome.NoAnswer? || es[0].outcome.status < 400;
      SentStays(u, rest, t, id);
    }
  }

  /**
   * Over every run with any crashes, restarts and repairs: a request that was sent and was not answered with an error status
   * is in flight or among the calls on disk. No answer, or a success that cannot be read, never drops it.
   */
  lemma SentRequestsStayOnFile(s0: System, es: seq<Event>, s: System, id: RequestId, charge: real)
    requires Initial(s0) && Run(s0, es, s) && Send(id, charge) in es
    requires forall i | 0 <= i < |es| && es[i].Finish? && es[i].id == id :: es[i].outcome.NoAnswer? || es[i].outcome.status < 400
    ensures id in s.state.inFlight || exists i :: 0 <= i < |s.ledger.calls| && s.ledger.calls[i].id == id
  {
    SentStays(s0, es, s, id);
    SentOnFile(s, id);
  }

  // ---------------------------------------------------------------- the ledger never undercounts

  lemma {:induction false} ChargedIsSum(calls: seq<Call>)
    ensures Charged(calls, Everything) == SumCalls(calls, (c: Call) => c.cost)
  {
    if calls != [] { ChargedIsSum(Front(calls)); }
  }

  /** If every recorded or reserved amount covers the real charge of its request, spent plus pending
      covers the initial spend plus all real charges; with nothing in flight, spent alone does. */
  lemma SpendNeverUndercounts(s: System)
    requires Reachable(s)
    requires forall i | 0 <= i < |s.ledger.calls| :: s.ledger.calls[i].cost >= 0.0
    requires forall i | 0 <= i < |s.ledger.calls| && s.ledger.calls[i].id in s.history.sent ::
               s.history.sent[s.ledger.calls[i].id] <= s.ledger.calls[i].cost
    requires forall id | id in s.state.inFlight && id in s.history.sent ::
               s.history.sent[id] <= s.state.inFlight[id].reservation.cost
    ensures s.ledger.spent + BudgetSpec.Pending(s.state.inFlight, Everything)
            >= s.ledger.initial + SumMap(s.history.sent, Amount())
    ensures s.state.inFlight == map[] ==> s.ledger.spent >= s.ledger.initial + SumMap(s.history.sent, Amount())
  {
    ReachableIsDurable(s);
    assert View(s, s.ledger, s.state);
    forall id | id in s.history.sent ensures id in Ids(s.ledger.calls) || id in s.state.inFlight {
      assert OnFile(s.ledger, s.state, id);
    }
    ChargedIsSum(s.ledger.calls);
    FilesDominate(s.history.sent, s.ledger.calls, (c: Call) => c.cost, s.state.inFlight, PendingWeight(Everything));
  }

  // ---------------------------------------------------------------- a write that fails in a process that lives on

  /** The first k owed writes reach the disk. */
  function FlushedFirst(s: System, k: nat): System
    requires s.process.Proxy? && k <= |s.process.todo|
    decreases k
  {
    if k == 0 then s else FlushedFirst(Flushed(s), k - 1)
  }

  /** The next owed write fails: it and what follows it never happen. The exception handler keeps the request and opens
      the circuit, and the next state write, its own or a later one, goes through. */
  function AfterFailedWrite(s: System): System
    requires s.process.Proxy? && s.process.todo != []
  {
    var Proxy(settings, ledger, state, _, owned, refused) := s.process;
    Flushed(s.(process := Proxy(settings, ledger, Opened(state, AmbiguousUpstream), [StateWrite], owned, refused)))
  }

  predicate Lost(s: System, id: RequestId) {
    id in s.history.sent && id !in s.state.inFlight && id !in Ids(s.ledger.calls)
  }

  lemma FailedStateWriteLosesNothing(t: System, other: RequestId)
    requires Durable(t) && t.process.Proxy? && t.process.todo == [StateWrite] && other in t.history.sent
    ensures !Lost(AfterFailedWrite(t), other)
  {
    assert View(t, t.process.ledger, t.process.state);
    assert OnFile(t.process.ledger, t.process.state, other);
  }

  /** Memory has dropped the reservation already, so the ledger write that charges it is the one that must not fail. */
  lemma FailedLedgerWriteLosesRequest(s: System, id: RequestId, outcome: Outcome, other: RequestId)
    requires Durable(s) && Enabled(s, Finish(id, outcome)) && Settle(outcome).Charge? && other in s.history.sent
    ensures var t := Step(s, Finish(id, outcome));
            t.process.todo == [LedgerWrite, StateWrite] && (Lost(AfterFailedWrite(t), other) <==> other == id)
  {
    assert View(s, s.ledger, s.state);
    assert OnFile(s.ledger, s.state, other);
  }

  /** Of all writes owed for an upstream outcome, the one whose failure loses a sent request is exactly the ledger write, and
      the request lost is exactly the one it charges. */
  lemma FailedWriteLosesIff(s: System, id: RequestId, outcome: Outcome, k: nat, other: RequestId)
    requires Reachable(s) && Enabled(s, Finish(id, outcome))
    requires k < |Step(s, Finish(id, outcome)).process.todo| && other in Step(s, Finish(id, outcome)).history.sent
    ensures var t := Step(s, Finish(id, outcome));
            Lost(AfterFailedWrite(FlushedFirst(t, k)), other) <==> t.process.todo[k] == LedgerWrite && other == id
  {
    ReachableIsDurable(s);
    var t := Step(s, Finish(id, outcome));
    DurableStep(s, Finish(id, outcome));
    if k == 1 {
      DurableStep(t, Flush);
      FailedStateWriteLosesNothing(Step(t, Flush), other);
    } else if t.process.todo == [StateWrite] {
      FailedStateWriteLosesNothing(t, other);
    } else {
      FailedLedgerWriteLosesRequest(s, id, outcome, other);
    }
  }

  // ---------------------------------------------------------------- how long a lost request stays lost

  predicate Absent(l: Ledger, st: State, id: RequestId) {
    id !in Ids(l.calls) && id !in st.inFlight
  }

  /** The running proxy remembers the call that neither file shows. */
  predicate Remembered(s: System, id: RequestId) {
    && s.process.Proxy? && id in s.history.granted && Absent(s.ledger, s.state, id)
    && id in Ids(s.process.ledger.calls) && id !in s.process.state.inFlight
  }

  predicate Gone(s: System, id: RequestId) {
    && id in s.history.granted && Absent(s.ledger, s.state, id)
    && (!s.process.Down? ==> Absent(s.process.ledger, s.process.state, id))
  }

  predicate Restored(s: System, id: RequestId) {
    id in Ids(s.ledger.calls) && (!s.process.Down? ==> id in Ids(s.process.ledger.calls))
  }

  predicate WritesLedger(s: System, e: Event) {
    e.Flush? && !s.process.Down? && s.process.todo != [] && s.process.todo[0] == LedgerWrite
  }

  lemma SettledIds(l: Ledger, st: State, id: RequestId, t: Settlement)
    ensures Ids(SettledLedger(l, st, id, t).calls) == Ids(l.calls) + if t.Charge? && id in st.inFlight then {id} else {}
  {
    if t.Charge? && id in st.inFlight { AppendIds(l.calls, CallFor(l.guard, id, st.inFlight[id], t.usage)); }
  }

  lemma RememberedStep(s: System, e: Event, id: RequestId)
    requires Remembered(s, id) && Enabled(s, e)
    ensures if e.Crash? then Gone(Step(s, e), id) else if WritesLedger(s, e) then Restored(Step(s, e), id) else Remembered(Step(s, e), id)
  {
    if e.Finish? { SettledIds(s.process.ledger, s.process.state, e.id, Settle(e.outcome)); }
  }

  lemma GoneStep(s: System, e: Event, id: RequestId)
    requires Gone(s, id) && Enabled(s, e)
    ensures Gone(Step(s, e), id)
  {
    if e.Finish? { SettledIds(s.process.ledger, s.process.state, e.id, Settle(e.outcome)); }
    if e.Reconcile? { MaximumCallsIds(s.state.inFlight, s.ledger.calls, id); }
  }

  lemma RestoredStep(s: System, e: Event, id: RequestId)
    requires Restored(s, id) && Enabled(s, e)
    ensures Restored(Step(s, e), id)
  {
    if e.Finish? { SettledIds(s.process.ledger, s.process.state, e.id, Settle(e.outcome)); }
    if e.Reconcile? { MaximumCallsIds(s.state.inFlight, s.ledger.calls, id); }
  }

  lemma {:induction false} GoneForever(s: System, es: seq<Event>, t: System, id: RequestId)
    requires Gone(s, id) && Run(s, es, t)
    ensures Gone(t, id)
    decreases |es|
  {
    if es != [] {
      GoneStep(s, es[0], id);
      GoneForever(Step(s, es[0]), es[1..], t, id);
    }
  }

  lemma {:induction false} RestoredForever(s: System, es: seq<Event>, t: System, id: RequestId)
    requires Restored(s, id) && Run(s, es, t)
    ensures Restored(t, id)
    decreases |es|
  {
    if es != [] {
      RestoredStep(s, es[0], id);
      RestoredForever(Step(s, es[0]), es[1..], t, id);
    }
  }

  /** The run writes the ledger before the process dies. */
  ghost predicate WritesBeforeCrash(s: System, es: seq<Event>)
    decreases |es|
  {
    && es != [] && Enabled(s, es[0]) && !es[0].Crash?
    && (WritesLedger(s, es[0]) || WritesBeforeCrash(Step(s, es[0]), es[1..]))
  }

  lemma {:induction false} RememberedAlways(s: System, es: seq<Event>, t: System, id: RequestId)
    requires Remembered(s, id) && Run(s, es, t)
    ensures OnFile(t.ledger, t.state, id) <==> WritesBeforeCrash(s, es)
    decreases |es|
  {
    if es != [] {
      var u := Step(s, es[0]);
      RememberedStep(s, es[0], id);
      if es[0].Crash? {
        GoneForever(u, es[1..], t, id);
      } else if WritesLedger(s, es[0]) {
        RestoredForever(u, es[1..], t, id);
      } else {
        RememberedAlways(u, es[1..], t, id);
      }
    }
  }

  /**
   * After a failed ledger write the request it charges is back on file at the end of a run, whatever runs, if and only if
   * the process wrote the ledger again before it died: memory still has the call. A process that dies first loses it for
   * good.
   */
  lemma LossRepairedIff(s: System, id: RequestId, outcome: Outcome, es: seq<Event>, t: System)
    requires Reachable(s) && Enabled(s, Finish(id, outcome)) && Settle(outcome).Charge?
    requires id in s.history.sent && Run(AfterFailedWrite(Step(s, Finish(id, outcome))), es, t)
    ensures OnFile(t.ledger, t.state, id) <==> WritesBeforeCrash(AfterFailedWrite(Step(s, Finish(id, outcome))), es)
  {
    ReachableIsDurable(s);
    FailedLedgerWriteLosesRequest(s, id, outcome, id);
    SettledIds(s.process.ledger, s.process.state, id, Settle(outcome));
    RememberedAlways(AfterFailedWrite(Step(s, Finish(id, outcome))), es, t, id);
  }

  /** Such a request exists: granted, sent and answered under fresh files. */
  lemma LostRequest(x: Settings, cheap: Item, dear: Item) returns (s: System, outcome: Outcome)
    requires Scenario(x, cheap, dear)
    ensures Reachable(s) && Enabled(s, Finish(0, outcome)) && Settle(outcome).Charge? && 0 in s.history.sent
    ensures Step(s, Finish(0, outcome)).process.todo[0] == LedgerWrite && Lost(AfterFailedWrite(Step(s, Finish(0, outcome))), 0)
  {
    outcome := Answered(200, Some(Usage(Some(0), Some(0), None, None)));
    s := OneSent(x, cheap, dear);
    ReachableIsDurable(s);
    FailedLedgerWriteLosesRequest(s, 0, outcome, 0);
  }

  // ---------------------------------------------------------------- ambiguous requests are charged first

  /** What is left ambiguous, be it by an outcome or by a crash, has a call at its reserved maximum once anything is granted. */
  lemma AmbiguousCharged(s: System, id: RequestId, item: Item, left: RequestId)
    requires Reachable(s) && Enabled(s, Reserve(id, item))
    requires Decide(s.process.settings, s.process.ledger, s.process.state, item) == Grant
    requires left in s.history.ambiguous
    ensures left in s.history.granted && ChargedAtMaximum(s.ledger.calls, left, s.history.granted[left])
  {
    ReachableIsDurable(s);
    assert View(s, s.ledger, s.state);
    assert Kept(s.ledger, s.state, s.history);
  }

  predicate Unanswered(o: Outcome) {
    o.NoAnswer? || (o.status < 400 && o.usage.None?)
  }

  lemma {:induction false} AmbiguousStays(s: System, es: seq<Event>, t: System, id: RequestId)
    requires Run(s, es, t)
    requires id in s.history.ambiguous || exists i :: 0 <= i < |es| && es[i].Finish? && es[i].id == id && Unanswered(es[i].outcome)
    ensures id in t.history.ambiguous
    decreases |es|
  {
    if es != [] {
      var rest := es[1..];
      if id !in s.history.ambiguous {
        var i :| 0 <= i < |es| && es[i].Finish? && es[i].id == id && Unanswered(es[i].outcome);
        assert i == 0 || rest[i - 1] == es[i];
      }
      AmbiguousStays(Step(s, es[0]), rest, t, id);
    }
  }

  /**
   * Over every run: once a request has ended without an answer, or with a success that cannot be read, nothing is admitted
   * before the ledger has a reconciled call for it at the tokens and cost it had reserved.
   */
  lemma AmbiguousChargedBeforeGrant(s0: System, es: seq<Event>, s: System, left: RequestId, outcome: Outcome, id: RequestId, item: Item)
    requires Initial(s0) && Run(s0, es, s) && Finish(left, outcome) in es
    requires outcome.NoAnswer? || (outcome.status < 400 && outcome.usage.None?)
    requires Enabled(s, Reserve(id, item)) && id in Step(s, Reserve(id, item)).process.state.inFlight
    ensures left in s.history.granted
    ensures var r := s.history.granted[left].reservation;
            exists i :: 0 <= i < |s.ledger.calls| &&
              var c := s.ledger.calls[i];
              c.id == left && c.reconciled && c.inputTokens == r.inputTokens && c.outputTokens == r.outputTokens && c.cost == r.cost
  {
    AmbiguousStays(s0, es, s, left);
    ReachableIsDurable(s);
    AmbiguousCharged(s, id, item, left);
    var i :| 0 <= i < |s.ledger.calls| && s.ledger.calls[i] == MaximumCall(left, s.history.granted[left]);
    assert s.ledger.calls[i].id == left;
  }
}
