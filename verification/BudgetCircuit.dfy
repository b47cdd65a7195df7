/** The circuit as a latch over whole runs: what keeps it open, what may close it, and exactly when nothing can. */
module BudgetCircuit {
  import opened Options
  import opened BudgetSpec
  import opened BudgetSystem
  import opened BudgetScenario

  predicate IsRepair(e: Event) {
    e.Reconcile? || e.Reset?
  }

  ghost predicate LatchedOnDisk(s: System) {
    Linked(s) && s.state.circuitOpen && !s.process.Repairing?
  }

  /** Once the open circuit is on disk, neither crashes nor restarts nor any thread close it or grant anything. */
  lemma {:induction false} OpenCircuitGrantsNothing(s: System, es: seq<Event>, t: System)
    requires LatchedOnDisk(s) && Run(s, es, t)
    requires forall i | 0 <= i < |es| :: !IsRepair(es[i])
    ensures LatchedOnDisk(t) && t.history.granted == s.history.granted
    decreases |es|
  {
    if es != [] {
      assert !IsRepair(es[0]);
      LinkedStep(s, es[0]);
      OpenCircuitGrantsNothing(Step(s, es[0]), es[1..], t);
    }
  }

  /** In memory the circuit holds from the moment it trips, before the state file is written. */
  lemma {:induction false} TrippedProxyGrantsNothing(s: System, es: seq<Event>, t: System)
    requires Linked(s) && s.process.Proxy? && s.process.state.circuitOpen && Run(s, es, t)
    requires forall i | 0 <= i < |es| :: !es[i].Crash?
    ensures t.process.Proxy? && t.process.state.circuitOpen && t.history.granted == s.history.granted
    decreases |es|
  {
    if es != [] {
      assert !es[0].Crash?;
      LinkedStep(s, es[0]);
      TrippedProxyGrantsNothing(Step(s, es[0]), es[1..], t);
    }
  }

  predicate RepairFree(es: seq<Event>) {
    forall i | 0 <= i < |es| :: !IsRepair(es[i])
  }

  /** What holds the latch through crashes: the open circuit on disk, or a request on disk that makes the next start open it. */
  ghost predicate Held(s: System) {
    && Linked(s) && !s.process.Repairing?
    && (s.state.circuitOpen || (s.state.inFlight != map[] && (s.process.Proxy? ==> s.process.state.circuitOpen)))
  }

  lemma HeldStep(s: System, e: Event)
    requires Held(s) && Enabled(s, e) && !IsRepair(e)
    ensures Held(Step(s, e)) && Step(s, e).history.granted == s.history.granted
  {
    LinkedStep(s, e);
  }

  lemma {:induction false} HeldAlways(s: System, es: seq<Event>, t: System)
    requires Held(s) && Run(s, es, t) && RepairFree(es)
    ensures Held(t) && t.history.granted == s.history.granted
    decreases |es|
  {
    if es != [] {
      assert !IsRepair(es[0]);
      HeldStep(s, es[0]);
      HeldAlways(Step(s, es[0]), es[1..], t);
    }
  }

  /** The proxy is down and nothing on disk would open the circuit at the next start. */
  predicate Forgotten(t: System) {
    t.process.Down? && !t.state.circuitOpen && t.state.inFlight == map[]
  }

  ghost predicate CanForget(s: System) {
    exists es, t :: Run(s, es, t) && RepairFree(es) && Forgotten(t)
  }

  /** A trip in memory can be forgotten without a repair if and only if the disk has neither the open circuit nor a request in flight. */
  lemma TripForgottenIff(s: System)
    requires Linked(s) && s.process.Proxy? && s.process.state.circuitOpen
    ensures CanForget(s) <==> !s.state.circuitOpen && s.state.inFlight == map[]
  {
    if !s.state.circuitOpen && s.state.inFlight == map[] {
      RunOne(s, Crash);
      assert RepairFree([Crash]) && Forgotten(Step(s, Crash));
    } else {
      forall es, t | Run(s, es, t) && RepairFree(es) ensures !Forgotten(t) {
        HeldAlways(s, es, t);
      }
    }
  }

  /** And a forgotten trip is forgotten: the next start that accepts the ledger runs with its circuit closed. */
  lemma ForgottenRestartsClosed(t: System, settings: Settings)
    requires Forgotten(t) && Enabled(t, Launch(settings))
    ensures StartAccepts(settings, t.ledger) <==> Step(t, Launch(settings)).process.Proxy?
    ensures StartAccepts(settings, t.ledger) ==> !Step(t, Launch(settings)).process.state.circuitOpen
  {
  }

  /** Otherwise no run without a repair, whatever crashes and restarts it has, grants anything. */
  lemma UnforgettableTripGrantsNothing(s: System, es: seq<Event>, t: System)
    requires Linked(s) && s.process.Proxy? && s.process.state.circuitOpen
    requires !CanForget(s) && Run(s, es, t) && RepairFree(es)
    ensures t.history.granted == s.history.granted
    ensures t.process.Proxy? ==> t.process.state.circuitOpen
  {
    TripForgottenIff(s);
    HeldAlways(s, es, t);
  }

  lemma RunTwo(s: System, e: Event, f: Event, t: System)
    ensures Run(s, [e, f], t) <==> Enabled(s, e) && Enabled(Step(s, e), f) && t == Step(Step(s, e), f)
  {
    assert [e, f][1..] == [f] && [f][1..] == [];
    if Enabled(s, e) && Enabled(Step(s, e), f) { assert Run(Step(s, e), [f], t) <==> Run(Step(Step(s, e), f), [], t); }
  }

  /** A crash between a trip and its write forgets the trip exactly when the disk holds nothing in flight and no open circuit. */
  lemma CrashBeforeWriteForgetsTrip(s: System, reason: Reason)
    requires Linked(s) && Idle(s) && reason in s.process.refused
    ensures (exists t :: Run(s, [Trip(reason), Crash], t) && Forgotten(t)) <==> !s.state.circuitOpen && s.state.inFlight == map[]
  {
    var t := Step(Step(s, Trip(reason)), Crash);
    RunTwo(s, Trip(reason), Crash, t);
    forall v ensures Run(s, [Trip(reason), Crash], v) ==> v == t {
      RunTwo(s, Trip(reason), Crash, v);
    }
    assert Forgotten(t) <==> !s.state.circuitOpen && s.state.inFlight == map[];
  }

  /** Such a state is reached: a fresh proxy refuses a request that costs too much and trips, with the state write still owed. */
  lemma TripForgotten(x: Settings, cheap: Item, dear: Item) returns (s: System)
    requires Scenario(x, cheap, dear)
    ensures Reachable(s) && s.process.Proxy? && s.process.state.circuitOpen && CanForget(s)
  {
    var up, asked := Stage(x, NoState, {}, multiset{}, map[]), Stage(x, NoState, {}, multiset{ProviderTotalExceeded}, map[]);
    s := Step(asked, Trip(ProviderTotalExceeded));
    assert Initial(Nothing(x));
    LinkedInitially(Nothing(x));
    Started(x, cheap, dear);
    RefusedOnMoney(x, dear, NoState, {}, map[]);
    RunConcat(Nothing(x), [Launch(x)], up, [Reserve(1, dear)], asked);
    var es := [Launch(x)] + [Reserve(1, dear)];
    RunAlso(Nothing(x), es, asked, Trip(ProviderTotalExceeded));
    LinkedAlways(Nothing(x), es + [Trip(ProviderTotalExceeded)], s);
    TripForgottenIff(s);
  }

  // ---------------------------------------------------------------- reset tokens are one-shot

  ghost predicate Distinct(tokens: seq<Token>) {
    forall i, j | 0 <= i < j < |tokens| :: tokens[i] != tokens[j]
  }

  ghost predicate TokensSpentOnce(s: System) {
    && Linked(s) && s.state.consumed == s.history.resets && Distinct(s.history.resets)
  }

  lemma TokensSpentOnceStep(s: System, e: Event)
    requires TokensSpentOnce(s) && Enabled(s, e)
    ensures TokensSpentOnce(Step(s, e))
  {
    LinkedStep(s, e);
    if e.Flush? && s.process.Repairing? && s.process.script.Resetting? {
      assert s.process.state.consumed == s.state.consumed + [s.process.script.token];
    }
  }

  lemma {:induction false} TokensSpentOnceAlways(s: System, es: seq<Event>, t: System)
    requires TokensSpentOnce(s) && Run(s, es, t)
    ensures TokensSpentOnce(t)
    decreases |es|
  {
    if es != [] {
      TokensSpentOnceStep(s, es[0]);
      TokensSpentOnceAlways(Step(s, es[0]), es[1..], t);
    }
  }

  /** No token ever completes two resets. */
  lemma ResetTokenClosesOnce(s: System, i: nat, j: nat)
    requires Reachable(s) && i < j < |s.history.resets|
    ensures s.history.resets[i] != s.history.resets[j]
  {
    var s0, es :| Initial(s0) && Run(s0, es, s);
    LinkedInitially(s0);
    TokensSpentOnceAlways(s0, es, s);
  }

  // ---------------------------------------------------------------- exactly when the circuit is open for good

  /** Nothing in flight, a reason no script accepts, and no refused thread about to overwrite that reason. */
  ghost predicate Sealed(s: System) {
    && s.state.circuitOpen && s.state.inFlight == map[] && !Resettable(ReasonGiven(s.state))
    && match s.process
       case Down => true
       case Proxy(_, _, st, _, _, refused) =>
         && st.circuitOpen && st.inFlight == map[] && !Resettable(ReasonGiven(st))
         && forall r | r in refused :: !Resettable(r)
       case Repairing(_, _, _, _) => false
  }

  lemma SealedStep(s: System, e: Event)
    requires Linked(s) && Sealed(s) && Enabled(s, e)
    ensures Sealed(Step(s, e)) && Step(s, e).history.granted == s.history.granted
  {
    assert s.process.Proxy? ==> s.process.owned == {};
  }

  lemma {:induction false} SealedForever(s: System, es: seq<Event>, t: System)
    requires Linked(s) && Sealed(s) && Run(s, es, t)
    ensures Sealed(t) && t.history.granted == s.history.granted
    decreases |es|
  {
    if es != [] {
      LinkedStep(s, es[0]);
      SealedStep(s, es[0]);
      SealedForever(Step(s, es[0]), es[1..], t);
    }
  }

  function Above(tokens: seq<Token>): Token {
    if tokens == [] then 0
    else if tokens[0] >= Above(tokens[1..]) then tokens[0] + 1 else Above(tokens[1..])
  }

  lemma {:induction false} AboveIsFresh(tokens: seq<Token>)
    ensures forall i | 0 <= i < |tokens| :: tokens[i] < Above(tokens)
  {
    if tokens != [] {
      AboveIsFresh(tokens[1..]);
      forall i | 0 <= i < |tokens| ensures tokens[i] < Above(tokens) {
        if i > 0 { assert tokens[i] == tokens[1..][i - 1]; }
      }
    }
  }

  ghost predicate CanClose(s: System) {
    exists es, t :: Run(s, es, t) && !t.state.circuitOpen
  }

  lemma CloseAfter(s: System, e: Event)
    requires Enabled(s, e) && CanClose(Step(s, e))
    ensures CanClose(s)
  {
    var es, t :| Run(Step(s, e), es, t) && !t.state.circuitOpen;
    assert ([e] + es)[1..] == es;
    assert Run(s, [e] + es, t);
  }

  lemma DownCanClose(s: System)
    requires Linked(s) && s.process.Down? && s.state.circuitOpen
    requires s.state.inFlight != map[] || Resettable(ReasonGiven(s.state))
    ensures CanClose(s)
  {
    if s.state.inFlight != map[] {
      var a := Step(s, Reconcile);
      var b := Step(a, Flush);
      var c := Step(b, Flush);
      assert Run(c, [], c) && !c.state.circuitOpen;
      CloseAfter(b, Flush);
      CloseAfter(a, Flush);
      CloseAfter(s, Reconcile);
    } else {
      AboveIsFresh(s.state.consumed);
      var token := Above(s.state.consumed);
      var a := Step(s, Reset(token));
      var b := Step(a, Flush);
      assert Run(b, [], b) && !b.state.circuitOpen;
      CloseAfter(a, Flush);
      CloseAfter(s, Reset(token));
    }
  }

  /** A script half way through closes the circuit with its last write. */
  lemma RepairCloses(s: System)
    requires Linked(s) && s.process.Repairing?
    ensures CanClose(s)
  {
    var a := Step(s, Flush);
    LinkedFlush(s);
    if |s.process.todo| == 1 {
      assert !a.state.circuitOpen && Run(a, [], a);
    } else {
      var b := Step(a, Flush);
      assert !b.state.circuitOpen && Run(b, [], b);
      CloseAfter(a, Flush);
    }
    CloseAfter(s, Flush);
  }

  lemma IdleCanClose(s: System)
    requires Linked(s) && s.state.circuitOpen && Idle(s) && !Sealed(s)
    requires s.state.inFlight == map[] && !Resettable(ReasonGiven(s.state))
    ensures CanClose(s)
  {
    var r :| r in s.process.refused && Resettable(r);
    var a := Step(s, Trip(r));
    LinkedStep(s, Trip(r));
    var b := Step(a, Flush);
    LinkedStep(a, Flush);
    LinkedStep(b, Crash);
    DownCanClose(Step(b, Crash));
    CloseAfter(b, Crash);
    CloseAfter(a, Flush);
    CloseAfter(s, Trip(r));
  }

  lemma UnsealedCanClose(s: System)
    requires Linked(s) && s.state.circuitOpen && !Sealed(s)
    ensures CanClose(s)
    decreases if s.process.Proxy? then |s.process.todo| else 0
  {
    if s.process.Down? {
      DownCanClose(s);
    } else if s.process.Repairing? {
      RepairCloses(s);
    } else if s.state.inFlight != map[] || Resettable(ReasonGiven(s.state)) {
      LinkedStep(s, Crash);
      DownCanClose(Step(s, Crash));
      CloseAfter(s, Crash);
    } else if Idle(s) {
      IdleCanClose(s);
    } else {
      LinkedFlush(s);
      UnsealedCanClose(Step(s, Flush));
      CloseAfter(s, Flush);
    }
  }

  /** An open circuit on disk stays open on every run if and only if it is sealed, whatever writes are still owed. */
  lemma OpenForeverIffSealed(s: System)
    requires Linked(s) && s.state.circuitOpen
    ensures Sealed(s) <==> !CanClose(s)
  {
    if Sealed(s) {
      forall es, t | Run(s, es, t) ensures t.state.circuitOpen {
        SealedForever(s, es, t);
      }
    } else {
      UnsealedCanClose(s);
    }
  }

  /**
   * The same with the reasons written out: whatever writes are owed, the circuit on disk can be closed by some run if and
   * only if a repair is under way, or the disk or the running proxy has a request in flight, or one of them gives a
   * provider's 401 or 402 as its reason, or a refused thread is about to.
   */
  lemma OnlyAuthFailuresAndPendingCanBeClosed(s: System)
    requires Linked(s) && s.state.circuitOpen
    ensures CanClose(s) <==>
      || s.process.Repairing?
      || s.state.inFlight != map[] || s.state.reason == Some(ProviderReturned(401)) || s.state.reason == Some(ProviderReturned(402))
      || (s.process.Proxy? && (
            || s.process.state.inFlight != map[]
            || s.process.state.reason == Some(ProviderReturned(401)) || s.process.state.reason == Some(ProviderReturned(402))
            || ProviderReturned(401) in s.process.refused || ProviderReturned(402) in s.process.refused))
  {
    OpenForeverIffSealed(s);
    SealedOtherwise(s);
  }

  lemma SealedOtherwise(s: System)
    requires Linked(s) && s.state.circuitOpen
    ensures !Sealed(s) <==>
      || s.process.Repairing?
      || s.state.inFlight != map[] || s.state.reason == Some(ProviderReturned(401)) || s.state.reason == Some(ProviderReturned(402))
      || (s.process.Proxy? && (
            || s.process.state.inFlight != map[]
            || s.process.state.reason == Some(ProviderReturned(401)) || s.process.state.reason == Some(ProviderReturned(402))
            || ProviderReturned(401) in s.process.refused || ProviderReturned(402) in s.process.refused))
  {
    if s.process.Proxy? {
      var refused := s.process.refused;
      assert (exists r :: r in refused && Resettable(r)) <==> ProviderReturned(401) in refused || ProviderReturned(402) in refused by {
        assert Resettable(ProviderReturned(401)) && Resettable(ProviderReturned(402));
      }
    }
  }

  /**
   * A monetary or ambiguous trip with nothing in flight, and no thread refused for a provider's 401 or 402, is final: over
   * every run, with crashes, restarts and both scripts, the circuit stays open and nothing is granted.
   */
  lemma MonetaryTripIsFinal(s: System, es: seq<Event>, t: System)
    requires Linked(s) && s.state.circuitOpen && s.state.inFlight == map[]
    requires s.state.reason in {None, Some(ProviderTotalExceeded), Some(ScopeExceeded(QwenMonthly)), Some(ScopeExceeded(HindsightBackfill)),
                                Some(ScopeExceeded(HindsightMonthly)), Some(AmbiguousUpstream), Some(FoundAfterRestart), Some(Unexplained)}
    requires s.process.Down?
             || (Idle(s) && ProviderReturned(401) !in s.process.refused && ProviderReturned(402) !in s.process.refused)
    requires Run(s, es, t)
    ensures t.state.circuitOpen && t.state.inFlight == map[] && t.history.granted == s.history.granted
  {
    assert Sealed(s);
    SealedForever(s, es, t);
  }

  // ---------------------------------------------------------------- a monetary trip that is not final

  lemma Unauthorized(x: Settings, cheap: Item, refused: multiset<Reason>)
    ensures Run(Stage(x, OneInFlight(cheap), {0}, refused, map[0 := cheap]), [Finish(0, Answered(401, None)), Flush],
                Stage(x, Opened(NoState, UNAUTHORIZED), {}, refused, map[0 := cheap]))
  {
    var s := Stage(x, OneInFlight(cheap), {0}, refused, map[0 := cheap]);
    var e := Finish(0, Answered(401, None));
    var t := Step(s, e);
    assert s.state.inFlight - {0} == map[] && {0} - {0} == {} && [StateWrite][1..] == [];
    assert s.history.sent - {0} == map[];
    RunOne(s, e);
    RunAlso(s, [e], t, Flush);
    assert [e] + [Flush] == [e, Flush];
  }

  lemma RefusedByOpenCircuit(x: Settings, item: Item, refused: multiset<Reason>, granted: map<RequestId, Item>)
    requires Asks(x, item) && 2 !in granted
    ensures Run(Stage(x, Opened(NoState, UNAUTHORIZED), {}, refused, granted), [Reserve(2, item)],
                Stage(x, Opened(NoState, UNAUTHORIZED), {}, refused + multiset{UNAUTHORIZED}, granted))
  {
    var s := Stage(x, Opened(NoState, UNAUTHORIZED), {}, refused, granted);
    assert Enabled(s, Reserve(2, item));
    RunOne(s, Reserve(2, item));
  }

  lemma TripOverwrites(x: Settings, reason: Reason, st: State, refused: multiset<Reason>, granted: map<RequestId, Item>)
    requires reason in refused
    ensures Run(Stage(x, st, {}, refused, granted), [Trip(reason), Flush],
                Stage(x, Opened(st, reason), {}, refused - multiset{reason}, granted))
  {
    var s := Stage(x, st, {}, refused, granted);
    var t := Step(s, Trip(reason));
    assert [StateWrite][1..] == [];
    RunOne(s, Trip(reason));
    RunAlso(s, [Trip(reason)], t, Flush);
    assert [Trip(reason)] + [Flush] == [Trip(reason), Flush];
  }

  /** A run that trips on money, has nothing in flight and yet is not sealed: one request was refused on money,
      the provider then answered 401 to another, and a third, refused with that 401, has not re-opened the circuit yet. */
  lemma MonetaryTripMayBeOverwritten(x: Settings, cheap: Item, dear: Item) returns (s: System)
    requires Scenario(x, cheap, dear)
    ensures Reachable(s) && Idle(s) && s.state.circuitOpen && s.state.inFlight == map[]
    ensures s.state.reason == Some(ProviderTotalExceeded)
    ensures !Sealed(s) && CanClose(s)
  {
    var granted := map[0 := cheap];
    var money := multiset{ProviderTotalExceeded};
    var denied := Opened(NoState, UNAUTHORIZED);
    s := Stage(x, Opened(denied, ProviderTotalExceeded), {}, money + multiset{UNAUTHORIZED} - money, granted);
    var a, b, c := [Reserve(0, cheap), Flush], [Reserve(1, dear)], [Finish(0, Answered(401, None)), Flush];
    var d, e := [Reserve(2, cheap)], [Trip(ProviderTotalExceeded), Flush];
    var es := [Launch(x)] + (a + (b + (c + (d + e))));
    assert Run(Nothing(x), es, s) by {
      Started(x, cheap, dear);
      Granted(x, cheap, dear);
      AskedCost(x, cheap);
      RefusedOnMoney(x, dear, OneInFlight(cheap), {0}, granted);
      Unauthorized(x, cheap, money);
      RefusedByOpenCircuit(x, cheap, money, granted);
      TripOverwrites(x, ProviderTotalExceeded, denied, money + multiset{UNAUTHORIZED}, granted);
      RunConcat(Stage(x, denied, {}, money, granted), d, Stage(x, denied, {}, money + multiset{UNAUTHORIZED}, granted), e, s);
      RunConcat(Stage(x, OneInFlight(cheap), {0}, money, granted), c, Stage(x, denied, {}, money, granted), d + e, s);
      RunConcat(Stage(x, OneInFlight(cheap), {0}, multiset{}, granted), b, Stage(x, OneInFlight(cheap), {0}, money, granted), c + (d + e), s);
      RunConcat(Stage(x, NoState, {}, multiset{}, map[]), a, Stage(x, OneInFlight(cheap), {0}, multiset{}, granted), b + (c + (d + e)), s);
      RunConcat(Nothing(x), [Launch(x)], Stage(x, NoState, {}, multiset{}, map[]), a + (b + (c + (d + e))), s);
    }
    assert Initial(Nothing(x));
    LinkedInitially(Nothing(x));
    LinkedAlways(Nothing(x), es, s);
    assert UNAUTHORIZED in s.process.refused;
    UnsealedCanClose(s);
  }

  lemma {:induction false} LinkedAlways(s: System, es: seq<Event>, t: System)
    requires Linked(s) && Run(s, es, t)
    ensures Linked(t)
    decreases |es|
  {
    if es != [] {
      LinkedStep(s, es[0]);
      LinkedAlways(Step(s, es[0]), es[1..], t);
    }
  }
}
