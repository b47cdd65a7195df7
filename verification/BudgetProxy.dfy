/** The proxy's locked sections and the two operator scripts, on mutable memory and files.
    Each method is proved against the functions of BudgetSpec, down to the order of its file writes. */
module BudgetProxy {
  import opened Options
  import opened Sums
  import opened BudgetSpec
  import opened BudgetCeilings

  datatype Write = LedgerTo(ledger: Ledger) | StateTo(state: State)

  /** The two files. `log` remembers every replacement of a file, in order: a crash stops after some prefix of it. */
  class Disk {
    var ledger: Option<Ledger>
    var state: Option<State>
    ghost var log: seq<Write>

    method SaveLedger(l: Ledger)
      modifies this
      ensures ledger == Some(l) && state == old(state) && log == old(log) + [LedgerTo(l)]
    {
      ledger := Some(l);
      log := log + [LedgerTo(l)];
    }

    method SaveState(st: State)
      modifies this
      ensures state == Some(st) && ledger == old(ledger) && log == old(log) + [StateTo(st)]
    {
      state := Some(st);
      log := log + [StateTo(st)];
    }
  }

  function TokenSum(recent: seq<(real, int)>): int {
    if recent == [] then 0 else TokenSum(Front(recent)) + Last(recent).1
  }

  function Starts(recent: seq<(real, int)>): set<real> {
    set i | 0 <= i < |recent| :: recent[i].0
  }

  lemma AppendRecent(recent: seq<(real, int)>, r: (real, int))
    ensures TokenSum(recent + [r]) == TokenSum(recent) + r.1
    ensures Starts(recent + [r]) == Starts(recent) + {r.0}
  {
    assert Front(recent + [r]) == recent;
    assert (recent + [r])[|recent|] == r;
    assert forall i | 0 <= i < |recent| :: (recent + [r])[i] == recent[i];
    assert Starts(recent) <= Starts(recent + [r]) by {
      forall x | x in Starts(recent) ensures x in Starts(recent + [r]) {
        var i :| 0 <= i < |recent| && recent[i].0 == x;
        assert (recent + [r])[i].0 == x;
      }
    }
  }

  function CallStarts(calls: seq<Call>, now: real): set<real> {
    set i | 0 <= i < |calls| && Recent(calls[i].startedAt, now) :: calls[i].startedAt
  }

  function ItemStarts(m: map<RequestId, Item>, now: real): set<real> {
    set id | id in m && Recent(m[id].startedAt, now) :: m[id].startedAt
  }

  lemma CallStartsStep(calls: seq<Call>, i: nat, now: real)
    requires i < |calls|
    ensures CallStarts(calls[..i + 1], now) ==
            CallStarts(calls[..i], now) + if Recent(calls[i].startedAt, now) then {calls[i].startedAt} else {}
  {
    var s, t := calls[..i], calls[..i + 1];
    assert t[i] == calls[i] && forall j | 0 <= j < i :: t[j] == s[j];
    forall x | x in CallStarts(s, now) ensures x in CallStarts(t, now) {
      var j :| 0 <= j < |s| && Recent(s[j].startedAt, now) && s[j].startedAt == x;
      assert t[j].startedAt == x;
    }
  }

  /** `recent` holds the entries of `calls` and one entry for every recent item of m. */
  ghost predicate Gathered(recent: seq<(real, int)>, calls: seq<(real, int)>, m: map<RequestId, Item>, now: real) {
    && |recent| == |calls| + |RecentItems(m, now)|
    && TokenSum(recent) as real == TokenSum(calls) as real + SumMap(m, TokenWeight(now))
    && Starts(recent) == Starts(calls) + ItemStarts(m, now)
  }

  lemma GatherStart(calls: seq<(real, int)>, now: real)
    ensures Gathered(calls, calls, map[], now)
  {
    var none: map<RequestId, Item> := map[];
    assert SumMap(none, TokenWeight(now)) == 0.0 && RecentItems(none, now) == {} && ItemStarts(none, now) == {};
  }

  lemma GatherStep(recent: seq<(real, int)>, calls: seq<(real, int)>, m: map<RequestId, Item>,
                   id: RequestId, item: Item, now: real)
    requires id !in m && Gathered(recent, calls, m, now)
    ensures Gathered(if Recent(item.startedAt, now) then recent + [(item.startedAt, item.Tokens())] else recent,
                     calls, m[id := item], now)
  {
    SumMapInsert(m, TokenWeight(now), id, item);
    ItemStartsInsert(m, id, item, now);
    RecentItemsInsert(m, id, item, now);
    AppendRecent(recent, (item.startedAt, item.Tokens()));
  }

  class BudgetState {
    const settings: Settings
    const disk: Disk
    var ledger: Ledger
    var value: State

    /** Outside the lock, memory and files agree. */
    ghost predicate Valid()
      reads this, disk
    {
      disk.ledger == Some(ledger) && disk.state == Some(value)
    }

    constructor (settings: Settings, disk: Disk, ledger: Ledger, value: State)
      ensures this.settings == settings && this.disk == disk && this.ledger == ledger && this.value == value
    {
      this.settings, this.disk, this.ledger, this.value := settings, disk, ledger, value;
    }

    /** Process start. Refusing to start may still have created the ledger file. */
    static method Start(settings: Settings, disk: Disk) returns (r: Option<BudgetState>)
      modifies disk
      ensures var l := Or(old(disk.ledger), FreshLedger(settings));
              var st := Or(old(disk.state), NoState);
              && (r.Some? <==> StartAccepts(settings, l))
              && disk.ledger == Some(l)
              && (r.None? ==> disk.state == old(disk.state))
              && (r.Some? ==> fresh(r.value) && r.value.disk == disk && r.value.settings == settings && r.value.Valid()
                              && r.value.ledger == l && r.value.value == StartState(st))
              && disk.log == old(disk.log)
                 + (if old(disk.ledger).None? then [LedgerTo(l)] else [])
                 + (if r.Some? && old(disk.state).None? then [StateTo(NoState)] else [])
                 + (if r.Some? && st.inFlight != map[] then [StateTo(StartState(st))] else [])
      // a missing ledger is created empty at the initial spend; a start needs the same guard and spend, within the effective limit
      ensures old(disk.ledger).None? ==> disk.ledger == Some(Ledger(settings.guard, settings.initialSpend, settings.initialSpend, []))
      ensures disk.ledger.Some?
      ensures var l := disk.ledger.value;
              r.Some? <==>
                && l.guard == settings.guard
                && l.initial - settings.initialSpend <= 0.000000000001 && settings.initialSpend - l.initial <= 0.000000000001
                && l.spent <= settings.guard.totalLimit - settings.guard.safetyMargin
      // requests left in flight open the circuit and stay
      ensures r.Some? && old(disk.state).None? ==> r.value.value == State(false, None, map[], [])
      ensures r.Some? && old(disk.state).Some? ==>
                var was, st := old(disk.state).value, r.value.value;
                if was.inFlight == map[] then st == was
                else st.circuitOpen && st.reason == Some(FoundAfterRestart) && st.inFlight == was.inFlight && st.consumed == was.consumed
    {
      var l;
      if disk.ledger.Some? {
        l := disk.ledger.value;
      } else {
        l := FreshLedger(settings);
        disk.SaveLedger(l);
      }
      if l.guard != settings.guard { return None; }
      var drift := l.initial - settings.initialSpend;
      if (if drift < 0.0 then -drift else drift) > 0.000000000001 { return None; }
      if l.spent > settings.guard.Effective() { return None; }
      var st;
      if disk.state.Some? {
        st := disk.state.value;
      } else {
        st := NoState;
        disk.SaveState(st);
      }
      if st.inFlight != map[] {
        st := Opened(st, FoundAfterRestart);
        disk.SaveState(st);
      }
      var state := new BudgetState(settings, disk, l, st);
      r := Some(state);
    }

    method ScopeSpend(scope: Scope, period: Period) returns (total: real)
      ensures total == Charged(ledger.calls, Only(scope, period))
    {
      total := 0.0;
      for i := 0 to |ledger.calls|
        invariant total == Charged(ledger.calls[..i], Only(scope, period))
      {
        var call := ledger.calls[i];
        assert Front(ledger.calls[..i + 1]) == ledger.calls[..i];
        if call.scope == scope && call.period == period {
          total := total + call.cost;
        }
      }
      assert ledger.calls[..|ledger.calls|] == ledger.calls;
    }

    method PendingCost(b: Budget) returns (total: real)
      ensures total == Pending(value.inFlight, b)
    {
      total := 0.0;
      var rest := value.inFlight;
      while rest != map[]
        invariant total + Pending(rest, b) == Pending(value.inFlight, b)
        decreases |rest|
      {
        var id :| id in rest;
        SumMapRemove(rest, PendingWeight(b), id);
        assert (rest - {id}).Keys == rest.Keys - {id};
        if Covers(b, rest[id].scope, rest[id].period) {
          total := total + rest[id].reservation.cost;
        }
        rest := rest - {id};
      }
    }

    method RecentCharges(now: real) returns (recent: seq<(real, int)>)
      ensures |recent| == RecentCalls(ledger.calls, now)
      ensures TokenSum(recent) == RecentCallTokens(ledger.calls, now)
      ensures Starts(recent) == CallStarts(ledger.calls, now)
    {
      recent := [];
      for i := 0 to |ledger.calls|
        invariant |recent| == RecentCalls(ledger.calls[..i], now)
        invariant TokenSum(recent) == RecentCallTokens(ledger.calls[..i], now)
        invariant Starts(recent) == CallStarts(ledger.calls[..i], now)
      {
        var call := ledger.calls[i];
        assert Front(ledger.calls[..i + 1]) == ledger.calls[..i];
        CallStartsStep(ledger.calls, i, now);
        if 0.0 <= now - call.startedAt < WINDOW {
          AppendRecent(recent, (call.startedAt, call.inputTokens + call.outputTokens));
          recent := recent + [(call.startedAt, call.inputTokens + call.outputTokens)];
        }
      }
      assert ledger.calls[..|ledger.calls|] == ledger.calls;
    }

    method WithRecentItems(calls: seq<(real, int)>, now: real) returns (recent: seq<(real, int)>)
      ensures Gathered(recent, calls, value.inFlight, now)
    {
      recent := calls;
      var rest := value.inFlight.Keys;
      GatherStart(calls, now);
      assert value.inFlight - rest == map[];
      while rest != {}
        invariant rest <= value.inFlight.Keys
        invariant Gathered(recent, calls, value.inFlight - rest, now)
        decreases |rest|
      {
        var id :| id in rest;
        var item := value.inFlight[id];
        VisitEntry(value.inFlight, rest, id);
        GatherStep(recent, calls, value.inFlight - rest, id, item, now);
        if 0.0 <= now - item.startedAt < WINDOW {
          recent := recent + [(item.startedAt, item.Tokens())];
        }
        rest := rest - {id};
      }
      assert value.inFlight - {} == value.inFlight;
    }

    /** The admissions of the last minute, charged calls first. */
    method RecentAdmissions(now: real) returns (recent: seq<(real, int)>)
      ensures |recent| == RecentCount(ledger, value, now)
      ensures TokenSum(recent) as real == RecentTokens(ledger, value, now)
      ensures Starts(recent) == RecentStarts(ledger, value, now)
    {
      var calls := RecentCharges(now);
      recent := WithRecentItems(calls, now);
    }

    /** None stands for the refusal of a request larger than the token limit. */
    method RateDelayFor(tokens: nat, now: real) returns (delay: Option<real>)
      ensures delay.None? <==> tokens > settings.tpmLimit
      ensures delay.Some? ==> delay.value == RateDelay(settings, ledger, value, tokens, now)
    {
      var recent := RecentAdmissions(now);
      if tokens > settings.tpmLimit { return None; }
      var rpmBlocked := |recent| >= settings.rpmLimit;
      var sum := 0;
      for i := 0 to |recent|
        invariant sum == TokenSum(recent[..i])
      {
        assert Front(recent[..i + 1]) == recent[..i];
        sum := sum + recent[i].1;
      }
      assert recent[..|recent|] == recent;
      if !rpmBlocked && sum + tokens <= settings.tpmLimit { return Some(0.0); }
      if recent == [] { return Some(1.0); }
      var earliest := recent[0].0;
      for i := 1 to |recent|
        invariant earliest in Starts(recent)
        invariant forall j | 0 <= j < i :: earliest <= recent[j].0
      {
        if recent[i].0 < earliest { earliest := recent[i].0; }
      }
      assert IsEarliest(earliest, RecentStarts(ledger, value, now));
      delay := Some(Max(0.05, WINDOW - (now - earliest)));
    }

    /** One pass of the reserve loop, under the lock. */
    method TryReserve(id: RequestId, item: Item) returns (v: Verdict)
      requires Valid()
      modifies this`value, disk
      ensures Valid() && ledger == old(ledger)
      ensures v == Decide(settings, old(ledger), old(value), item)
      ensures value == if v.Grant? then Admitted(old(value), id, item) else old(value)
      ensures disk.log == old(disk.log) + if v.Grant? then [StateTo(value)] else []
    {
      if value.circuitOpen {
        return Refuse(ReasonGiven(value));
      }
      var reserved := PendingCost(Everything);
      if ledger.spent + reserved + item.reservation.cost > settings.guard.Effective() {
        return Refuse(ProviderTotalExceeded);
      }
      var spend := ScopeSpend(item.scope, item.period);
      var pending := PendingCost(Only(item.scope, item.period));
      if spend + pending + item.reservation.cost > ScopeLimit(settings.guard, item.scope) {
        return Refuse(ScopeExceeded(item.scope));
      }
      var delay := RateDelayFor(item.Tokens(), item.startedAt);
      if delay.None? {
        return TooLarge;
      }
      if delay.value <= 0.0 {
        value := value.(inFlight := value.inFlight[id := item]);
        disk.SaveState(value);
        return Grant;
      }
      return Wait(delay.value);
    }

    /** The whole reserve loop when no other request arrives meanwhile: a request that has to wait
        is admitted, at the latest one window and one sleep after it first asked. */
    method AwaitRoom(id: RequestId, endpoint: Endpoint, model: Model, input: nat, output: nat,
                   month: nat, start: real) returns (v: Verdict, finish: real)
      requires Valid() && settings.rpmLimit > 0
      requires forall i | 0 <= i < |ledger.calls| :: ledger.calls[i].startedAt <= start
      requires forall k | k in value.inFlight :: value.inFlight[k].startedAt <= start
      modifies this`value, disk
      ensures Valid() && ledger == old(ledger)
      ensures var (scope, period) := ScopeFor(settings, endpoint, month);
              var first := Decide(settings, old(ledger), old(value), ItemFor(settings, endpoint, model, scope, period, input, output, start));
              var item := ItemFor(settings, endpoint, model, scope, period, input, output, finish);
              && v == (if first.Wait? then Grant else first)
              && (first.Wait? <==> start < finish)
              && start <= finish <= start + 61.0
              && (v.Grant? ==> Decide(settings, old(ledger), old(value), item) == Grant && value == Admitted(old(value), id, item))
              && (!v.Grant? ==> value == old(value))
              && disk.log == old(disk.log) + if v.Grant? then [StateTo(value)] else []
    {
      var (scope, period) := ScopeFor(settings, endpoint, month);
      finish := start;
      v := TryReserve(id, ItemFor(settings, endpoint, model, scope, period, input, output, finish));
      ghost var first := v;
      while v.Wait?
        invariant start <= finish <= start + 61.0
        invariant Valid() && ledger == old(ledger)
        invariant v == Decide(settings, old(ledger), old(value), ItemFor(settings, endpoint, model, scope, period, input, output, finish))
        invariant value == if v.Grant? then Admitted(old(value), id, ItemFor(settings, endpoint, model, scope, period, input, output, finish)) else old(value)
        invariant disk.log == old(disk.log) + if v.Grant? then [StateTo(value)] else []
        invariant first == Decide(settings, old(ledger), old(value), ItemFor(settings, endpoint, model, scope, period, input, output, start))
        invariant first.Wait? ==> v.Wait? || v.Grant?
        invariant !first.Wait? ==> v == first && finish == start
        invariant first.Wait? ==> (finish == start ==> v.Wait?)
        decreases ((start + 61.0 - finish) * 10.0).Floor
      {
        var tokens := input + output;
        DelayAtLeast(settings, ledger, value, tokens, finish);
        if finish >= start + WINDOW {
          QuietWindowAdmits(settings, ledger, value, tokens, start, finish);
        }
        var pause := if v.delay + 0.05 <= 1.0 then v.delay + 0.05 else 1.0;
        finish := finish + pause;
        v := TryReserve(id, ItemFor(settings, endpoint, model, scope, period, input, output, finish));
      }
    }

    /** The reserve call: the scope and period the request counts against, then the waiting loop. */
    method Reserve(id: RequestId, endpoint: Endpoint, model: Model, input: nat, output: nat,
                   month: nat, start: real) returns (v: Verdict, finish: real)
      requires Valid() && settings.rpmLimit > 0
      requires forall i | 0 <= i < |ledger.calls| :: ledger.calls[i].startedAt <= start
      requires forall k | k in value.inFlight :: value.inFlight[k].startedAt <= start
      modifies this`value, disk
      ensures Valid() && ledger == old(ledger)
      ensures var (scope, period) := ScopeFor(settings, endpoint, month);
              var first := Decide(settings, old(ledger), old(value), ItemFor(settings, endpoint, model, scope, period, input, output, start));
              var item := ItemFor(settings, endpoint, model, scope, period, input, output, finish);
              && v == (if first.Wait? then Grant else first)
              && (first.Wait? <==> start < finish)
              && start <= finish <= start + 61.0
              && (v.Grant? ==> Decide(settings, old(ledger), old(value), item) == Grant && value == Admitted(old(value), id, item))
              && (!v.Grant? ==> value == old(value))
              && disk.log == old(disk.log) + if v.Grant? then [StateTo(value)] else []
      // on files whose requests count where their endpoint says, the verdict is that of the configured limits
      ensures TaggedCalls(old(ledger).calls) && TaggedItems(old(value).inFlight) ==>
                JudgedAs(v, settings, old(ledger), old(value), endpoint, model, input, output, month)
      ensures v.Grant? ==>
                && id in value.inFlight && value == old(value).(inFlight := old(value).inFlight[id := value.inFlight[id]])
                && var item := value.inFlight[id];
                   && item.endpoint == endpoint && item.model == model && item.startedAt == finish
                   && item.reservation == Reservation(input, output, PriceOfRequest(settings.guard, model, input, output))
                   && Tagged(endpoint, item.scope, item.period)
                   && (endpoint == Embeddings || settings.phase == Monthly ==> item.period == Month(month))
    {
      v, finish := AwaitRoom(id, endpoint, model, input, output, month, start);
      ScopesAreTagged(settings, endpoint, month);
      PricedAlike(settings, model, input, output);
      if TaggedCalls(old(ledger).calls) && TaggedItems(old(value).inFlight) {
        DecisionIsJudged(settings, old(ledger), old(value), endpoint, model, input, output, month, finish);
        DecisionIsJudged(settings, old(ledger), old(value), endpoint, model, input, output, month, start);
      }
    }

    method OpenCircuit(reason: Reason, keep: bool, id: Option<RequestId>)
      modifies this`value, disk
      requires disk.ledger == Some(ledger)
      ensures Valid() && ledger == old(ledger)
      ensures value == Opened(if !keep && id.Some? then Dropped(old(value), id.value) else old(value), reason)
      ensures disk.log == old(disk.log) + [StateTo(value)]
    {
      if !keep && id.Some? {
        value := value.(inFlight := value.inFlight - {id.value});
      }
      value := value.(circuitOpen := true, reason := Some(reason));
      disk.SaveState(value);
    }

    method Discard(id: RequestId)
      requires Valid()
      modifies this`value, disk
      ensures Valid() && ledger == old(ledger) && value == Dropped(old(value), id)
      ensures disk.log == old(disk.log) + [StateTo(value)]
    {
      value := value.(inFlight := value.inFlight - {id});
      disk.SaveState(value);
    }

    /** None stands for the guard violation of a reservation that disappeared. */
    method Record(id: RequestId, usage: Usage) returns (r: Option<Call>)
      requires Valid() && ledger.guard == settings.guard
      modifies this`ledger, this`value, disk
      ensures Valid()
      ensures r.Some? <==> id in old(value).inFlight
      ensures r.None? ==> ledger == old(ledger) && value == old(value) && disk.log == old(disk.log)
      ensures r.Some? ==>
                && r.value == CallFor(settings.guard, id, old(value).inFlight[id], usage)
                && ledger == WithCall(old(ledger), r.value) && value == Dropped(old(value), id)
                && disk.log == old(disk.log) + [LedgerTo(ledger), StateTo(value)]
    {
      if id !in value.inFlight { return None; }
      var item := value.inFlight[id];
      var input := if usage.prompt.Some? then usage.prompt.value else item.reservation.inputTokens;
      var output := if usage.completion.Some? then usage.completion.value else item.reservation.outputTokens;
      if usage.total.Some? {
        output := IntMax(output, IntMax(0, usage.total.value - input));
      }
      var calculated := TokenCost(settings.guard.PriceOf(item.model), input, output);
      var reported := if usage.cost.Some? then usage.cost.value else 0.0;
      var cost := Max(calculated, reported);
      var call := Call(id, item.startedAt, item.model, item.endpoint, item.scope, item.period, input, output, cost, false);
      ledger := ledger.(calls := ledger.calls + [call], spent := ledger.spent + cost);
      value := value.(inFlight := value.inFlight - {id});
      disk.SaveLedger(ledger);
      disk.SaveState(value);
      r := Some(call);
    }

    /** What the request thread does once its upstream call ended. */
    method Finish(id: RequestId, outcome: Outcome)
      requires Valid() && ledger.guard == settings.guard
      modifies this`ledger, this`value, disk
      ensures Valid()
      ensures ledger == SettledLedger(old(ledger), old(value), id, Settle(outcome))
      ensures value == SettledState(old(value), id, Settle(outcome))
      ensures disk.log == old(disk.log)
              + (if Settle(outcome).Charge? && id in old(value).inFlight then [LedgerTo(ledger)] else [])
              + [StateTo(value)]
      // no answer, or a success without usable usage: the reservation stays and the circuit opens
      ensures outcome.NoAnswer? || (outcome.status < 400 && outcome.usage.None?) ==>
                && ledger == old(ledger) && value.inFlight == old(value).inFlight
                && value.circuitOpen && value.reason == Some(AmbiguousUpstream)
      // the provider rejects the key: the reservation is dropped and the circuit opens with that status
      ensures outcome.Answered? && (outcome.status == 401 || outcome.status == 402) ==>
                && ledger == old(ledger) && value.inFlight == old(value).inFlight - {id}
                && value.circuitOpen && value.reason == Some(ProviderReturned(outcome.status))
      // any other error: the reservation is dropped and the circuit is left alone
      ensures outcome.Answered? && outcome.status >= 400 && outcome.status != 401 && outcome.status != 402 ==>
                && ledger == old(ledger) && value.inFlight == old(value).inFlight - {id}
                && value.circuitOpen == old(value).circuitOpen && value.reason == old(value).reason
      // a success with usage: the reservation becomes one call
      ensures outcome.Answered? && outcome.status < 400 && outcome.usage.Some? && id in old(value).inFlight ==>
                && value.inFlight == old(value).inFlight - {id}
                && value.circuitOpen == old(value).circuitOpen && value.reason == old(value).reason
                && |ledger.calls| == |old(ledger).calls| + 1 && ledger.calls[..|old(ledger).calls|] == old(ledger).calls
                && ledger.calls[|old(ledger).calls|].id == id
                && ledger.spent == old(ledger).spent + ledger.calls[|old(ledger).calls|].cost
                && disk.log == old(disk.log) + [LedgerTo(ledger), StateTo(value)]
      // its reservation disappeared: nothing is charged and the circuit opens
      ensures outcome.Answered? && outcome.status < 400 && outcome.usage.Some? && id !in old(value).inFlight ==>
                ledger == old(ledger) && value.inFlight == old(value).inFlight && value.circuitOpen
      ensures value.consumed == old(value).consumed
    {
      var failed := outcome.NoAnswer?;
      if !failed {
        if outcome.status == 401 || outcome.status == 402 {
          OpenCircuit(ProviderReturned(outcome.status), false, Some(id));
        } else if outcome.status < 400 {
          if outcome.usage.None? {
            failed := true;
          } else {
            var call := Record(id, outcome.usage.value);
            failed := call.None?;
          }
        } else {
          Discard(id);
        }
      }
      if failed {
        OpenCircuit(AmbiguousUpstream, true, Some(id));
      }
    }
  }

  lemma ItemStartsInsert(m: map<RequestId, Item>, id: RequestId, item: Item, now: real)
    requires id !in m
    ensures ItemStarts(m[id := item], now) ==
            ItemStarts(m, now) + if Recent(item.startedAt, now) then {item.startedAt} else {}
  {
    var n := m[id := item];
    forall x | x in ItemStarts(m, now) ensures x in ItemStarts(n, now) {
      var k :| k in m && Recent(m[k].startedAt, now) && m[k].startedAt == x;
      assert k in n && n[k].startedAt == x;
    }
    forall x | x in ItemStarts(n, now) && x !in ItemStarts(m, now)
      ensures Recent(item.startedAt, now) && x == item.startedAt
    {
      var k :| k in n && Recent(n[k].startedAt, now) && n[k].startedAt == x;
    }
    if Recent(item.startedAt, now) {
      assert n[id].startedAt == item.startedAt;
    }
  }

  lemma RecentItemsInsert(m: map<RequestId, Item>, id: RequestId, item: Item, now: real)
    requires id !in m
    ensures |RecentItems(m[id := item], now)| == |RecentItems(m, now)| + if Recent(item.startedAt, now) then 1 else 0
  {
    assert RecentItems(m[id := item], now) == RecentItems(m, now) + if Recent(item.startedAt, now) then {id} else {};
  }

  // ---------------------------------------------------------------- the delay makes progress

  lemma DelayAtLeast(s: Settings, l: Ledger, st: State, tokens: nat, now: real)
    ensures RateDelay(s, l, st, tokens, now) == 0.0 || RateDelay(s, l, st, tokens, now) >= 0.05
  {
  }

  lemma {:induction false} NoRecentCalls(calls: seq<Call>, start: real, now: real)
    requires forall i | 0 <= i < |calls| :: calls[i].startedAt <= start
    requires now >= start + WINDOW
    ensures RecentCalls(calls, now) == 0 && RecentCallTokens(calls, now) == 0
  {
    if calls != [] {
      NoRecentCalls(Front(calls), start, now);
    }
  }

  /** Once a whole window has passed since the last admission, every request of a legal size may go. */
  lemma QuietWindowAdmits(s: Settings, l: Ledger, st: State, tokens: nat, start: real, now: real)
    requires s.rpmLimit > 0 && tokens <= s.tpmLimit
    requires forall i | 0 <= i < |l.calls| :: l.calls[i].startedAt <= start
    requires forall k | k in st.inFlight :: st.inFlight[k].startedAt <= start
    requires now >= start + 60.0
    ensures RateDelay(s, l, st, tokens, now) == 0.0
  {
    NoRecentCalls(l.calls, start, now);
    assert RecentItems(st.inFlight, now) == {};
    SumMapZero(st.inFlight, TokenWeight(now));
  }

  lemma {:induction false} SomethingRecent(calls: seq<Call>, now: real)
    ensures CallStarts(calls, now) == {} <==> RecentCalls(calls, now) == 0
    ensures RecentCalls(calls, now) == 0 ==> RecentCallTokens(calls, now) == 0
  {
    if calls != [] {
      SomethingRecent(Front(calls), now);
      CallStartsStep(calls, |calls| - 1, now);
      assert calls[..|calls| - 1 + 1] == calls;
    }
  }

  lemma RecentItemStarts(l: Ledger, st: State, k: RequestId, now: real)
    requires k in st.inFlight && Recent(st.inFlight[k].startedAt, now)
    ensures st.inFlight[k].startedAt in RecentStarts(l, st, now)
  {
  }

  /** The branch that waits one second although nothing is recent is dead code. */
  lemma EmptyWindowNeverBlocks(s: Settings, l: Ledger, st: State, tokens: nat, now: real)
    requires s.rpmLimit > 0 && tokens <= s.tpmLimit
    requires RecentStarts(l, st, now) == {}
    ensures !RateBlocked(s, l, st, tokens, now)
  {
    assert CallStarts(l.calls, now) <= RecentStarts(l, st, now);
    SomethingRecent(l.calls, now);
    forall k | k in st.inFlight ensures !Recent(st.inFlight[k].startedAt, now) {
      if Recent(st.inFlight[k].startedAt, now) {
        RecentItemStarts(l, st, k, now);
      }
    }
    assert RecentItems(st.inFlight, now) == {};
    SumMapZero(st.inFlight, TokenWeight(now));
  }

  /** An admission, charged or in flight, started then. */
  ghost predicate Started(l: Ledger, st: State, start: real) {
    (exists call | call in l.calls :: call.startedAt == start) || exists id | id in st.inFlight :: st.inFlight[id].startedAt == start
  }

  /** The earliest admission of the last minute. */
  ghost predicate FirstOut(l: Ledger, st: State, start: real, now: real) {
    && Started(l, st, start) && 0.0 <= now - start < 60.0
    && forall other :: Started(l, st, other) && 0.0 <= now - other < 60.0 ==> start <= other
  }

  lemma RecentAreStarted(l: Ledger, st: State, start: real, now: real)
    ensures start in RecentStarts(l, st, now) <==> Started(l, st, start) && 0.0 <= now - start < 60.0
  {
    if Started(l, st, start) && 0.0 <= now - start < 60.0 {
      if call :| call in l.calls && call.startedAt == start {
        var i :| 0 <= i < |l.calls| && l.calls[i] == call;
        assert Recent(l.calls[i].startedAt, now);
      }
    }
    if start in RecentStarts(l, st, now) {
      if i :| 0 <= i < |l.calls| && Recent(l.calls[i].startedAt, now) && l.calls[i].startedAt == start {
        assert l.calls[i] in l.calls;
      }
    }
  }

  /** A request that must wait waits until the earliest admission of the last minute is a minute old, and at least 0.05 seconds. */
  lemma DelayEndsWithTheFirstOut(s: Settings, l: Ledger, st: State, tokens: nat, now: real)
    requires s.rpmLimit > 0 && tokens <= s.tpmLimit
    ensures var delay := RateDelay(s, l, st, tokens, now);
            || delay == 0.0
            || exists start :: FirstOut(l, st, start, now) && delay == if start + 60.0 - now >= 0.05 then start + 60.0 - now else 0.05
  {
    if RateBlocked(s, l, st, tokens, now) {
      if RecentStarts(l, st, now) == {} {
        EmptyWindowNeverBlocks(s, l, st, tokens, now);
        assert false;
      } else {
        var start := Earliest(RecentStarts(l, st, now));
        RecentAreStarted(l, st, start, now);
        forall other | Started(l, st, other) && 0.0 <= now - other < 60.0 ensures start <= other {
          RecentAreStarted(l, st, other, now);
        }
        assert FirstOut(l, st, start, now);
      }
    }
  }

  // ---------------------------------------------------------------- operator scripts, run while the proxy is down

  datatype Repair = Rejected | Repaired(requests: nat, charged: real)

  /** Charging the least identifier first leaves the rest to charge. */
  lemma ChargeOne(calls: seq<Call>, charged: real, rest: map<RequestId, Item>, id: RequestId)
    requires IsLeast(id, rest.Keys)
    ensures calls + MaximumCalls(rest) == calls + [MaximumCall(id, rest[id])] + MaximumCalls(rest - {id})
    ensures charged + Pending(rest, Everything) == charged + rest[id].reservation.cost + Pending(rest - {id}, Everything)
  {
    assert id == MinKey(rest);
    SumMapRemove(rest, PendingWeight(Everything), id);
    assert calls + ([MaximumCall(id, rest[id])] + MaximumCalls(rest - {id})) == calls + [MaximumCall(id, rest[id])] + MaximumCalls(rest - {id});
  }

  method ChargeMaximum(inFlight: map<RequestId, Item>) returns (calls: seq<Call>, charged: real)
    ensures calls == MaximumCalls(inFlight) && charged == Pending(inFlight, Everything)
  {
    calls, charged := [], 0.0;
    var rest := inFlight;
    while rest != map[]
      invariant calls + MaximumCalls(rest) == MaximumCalls(inFlight)
      invariant charged + Pending(rest, Everything) == Pending(inFlight, Everything)
      decreases |rest|
    {
      ghost var least := MinKey(rest);
      var id :| id in rest.Keys && IsLeast(id, rest.Keys);
      ChargeOne(calls, charged, rest, id);
      assert (rest - {id}).Keys == rest.Keys - {id};
      charged := charged + rest[id].reservation.cost;
      calls := calls + [MaximumCall(id, rest[id])];
      rest := rest - {id};
    }
    assert calls == calls + MaximumCalls(rest);
  }

  /** One new call for each of these requests, with the fields of its reservation. */
  ghost predicate ChargedOnce(before: seq<Call>, after: seq<Call>, m: map<RequestId, Item>) {
    && |after| == |before| + |m| && after[..|before|] == before
    && (forall i: nat, j: nat | |before| <= i < j < |after| :: after[i].id < after[j].id)
    && (forall i: nat | |before| <= i < |after| :: after[i].id in m && AtReserved(after[i], m[after[i].id]))
  }

  predicate AtReserved(c: Call, item: Item) {
    && c.cost == item.reservation.cost && c.inputTokens == item.reservation.inputTokens && c.outputTokens == item.reservation.outputTokens
    && c.startedAt == item.startedAt && c.model == item.model && c.endpoint == item.endpoint
    && c.scope == item.scope && c.period == item.period && c.reconciled
  }

  lemma {:induction false} MaximumCallsRise(m: map<RequestId, Item>)
    ensures |MaximumCalls(m)| == |m|
    ensures forall i: nat, j: nat | i < j < |MaximumCalls(m)| :: MaximumCalls(m)[i].id < MaximumCalls(m)[j].id
    ensures forall i: nat | i < |MaximumCalls(m)| :: MaximumCalls(m)[i].id in m && AtReserved(MaximumCalls(m)[i], m[MaximumCalls(m)[i].id])
    decreases |m|
  {
    if m != map[] {
      var k := MinKey(m);
      var rest := MaximumCalls(m - {k});
      assert (m - {k}).Keys == m.Keys - {k};
      MaximumCallsRise(m - {k});
      assert MaximumCalls(m) == [MaximumCall(k, m[k])] + rest;
      forall i: nat | i < |MaximumCalls(m)|
        ensures MaximumCalls(m)[i].id in m && AtReserved(MaximumCalls(m)[i], m[MaximumCalls(m)[i].id])
        ensures i > 0 ==> MaximumCalls(m)[i] == rest[i - 1] && k < rest[i - 1].id
      {
        if i > 0 { assert rest[i - 1].id in m - {k}; }
      }
    }
  }

  lemma MaximumCallsChargeOnce(before: seq<Call>, m: map<RequestId, Item>)
    ensures ChargedOnce(before, before + MaximumCalls(m), m)
  {
    MaximumCallsRise(m);
    var after := before + MaximumCalls(m);
    forall i: nat | |before| <= i < |after| ensures after[i] == MaximumCalls(m)[i - |before|] {}
  }

  method Reconcile(disk: Disk, acknowledged: bool) returns (r: Repair)
    requires disk.ledger.Some? && disk.state.Some?
    modifies disk
    ensures var l, st := old(disk.ledger).value, old(disk.state).value;
            && (r.Rejected? <==> !acknowledged || st.inFlight == map[])
            && (r.Rejected? ==> disk.ledger == old(disk.ledger) && disk.state == old(disk.state) && disk.log == old(disk.log))
            && (r.Repaired? ==>
                  && r == Repaired(|st.inFlight|, Pending(st.inFlight, Everything))
                  && disk.ledger == Some(ReconciledLedger(l, st.inFlight)) && disk.state == Some(ReconciledState(st))
                  && disk.log == old(disk.log) + [LedgerTo(ReconciledLedger(l, st.inFlight)), StateTo(ReconciledState(st))])
    // every pending request gets one call at what it had reserved, and the circuit closes with nothing in flight
    ensures r.Repaired? ==>
              var l, st := old(disk.ledger).value, old(disk.state).value;
              && disk.ledger.Some? && disk.state.Some?
              && ChargedOnce(l.calls, disk.ledger.value.calls, st.inFlight)
              && disk.ledger.value.spent == l.spent + r.charged
              && disk.state.value.inFlight == map[] && !disk.state.value.circuitOpen && disk.state.value.reason == None
              && disk.state.value.consumed == st.consumed
  {
    if !acknowledged { return Rejected; }
    var ledger, state := disk.ledger.value, disk.state.value;
    ghost var state0 := state;
    if state.inFlight == map[] { return Rejected; }
    var calls, charged := ChargeMaximum(state.inFlight);
    ledger := ledger.(calls := ledger.calls + calls, spent := ledger.spent + charged);
    var count := |state.inFlight|;
    state := ReconciledState(state);
    MaximumCallsChargeOnce(disk.ledger.value.calls, state0.inFlight);
    disk.SaveLedger(ledger);
    disk.SaveState(state);
    r := Repaired(count, charged);
  }

  method ResetProviderAuth(disk: Disk, acknowledged: bool, token: Token) returns (reset: bool)
    requires disk.state.Some?
    modifies disk
    ensures reset <==> acknowledged && CanReset(old(disk.state).value, token)
    ensures disk.ledger == old(disk.ledger)
    ensures !reset ==> disk.state == old(disk.state) && disk.log == old(disk.log)
    ensures reset ==> disk.state == Some(ResetState(old(disk.state).value, token))
                      && disk.log == old(disk.log) + [StateTo(ResetState(old(disk.state).value, token))]
    // only a provider-authentication failure with nothing in flight is reset, by a token not consumed before
    ensures reset <==>
              var st := old(disk.state).value;
              && acknowledged && st.circuitOpen && st.inFlight == map[] && token !in st.consumed
              && (st.reason == Some(ProviderReturned(401)) || st.reason == Some(ProviderReturned(402)))
    ensures reset ==>
              var was, st := old(disk.state).value, disk.state.value;
              !st.circuitOpen && st.reason == None && st.inFlight == map[] && st.consumed == was.consumed + [token]
  {
    if !acknowledged { return false; }
    var state := disk.state.value;
    if !state.circuitOpen { return false; }
    if state.inFlight != map[] { return false; }
    if !Resettable(ReasonGiven(state)) { return false; }
    if token in state.consumed { return false; }
    state := state.(circuitOpen := false, reason := None, consumed := state.consumed + [token]);
    disk.SaveState(state);
    return true;
  }
}
