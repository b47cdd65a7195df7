/** The recovery guard, its phase file and the agent circuit, over any readings of the other services. */
module RecoveryGuard {
  import opened Options
  import opened RecoveryAudit

  datatype BudgetMode = BudgetOpen | BudgetClosed | BudgetAny

  datatype Phase = Phase(name: PhaseName, budget: BudgetMode, expectedSucceeded: nat, watchdogArmed: bool)

  /** What one snapshot reads besides the outbox rows and the agent circuit. */
  datatype Readings = Readings(
    pocketOpen: bool, pocketBusy: bool,
    maxInFlight: Option<nat>, runLimit: Option<nat>,
    hindsightFailed: nat, hindsightActive: nat, hindsightHealthy: bool,
    providerInFlight: nat, budgetCircuitOpen: bool, openReasonExpected: bool, budgetHealthy: bool,
    spent: real)

  datatype Snapshot = Snapshot(rows: seq<Row>, open: bool, env: Readings)

  datatype Failure =
    | TotalDrift | CapExceeded | TooManyActive | ErrorRows
    | ClosedOutsideRunning | ClosedAtCap | PocketClosed | PocketBusy
    | MaxInFlightDrift | RunLimitDrift | HindsightFailedDrift | HindsightActiveOutsideRunning
    | ProviderFanOut | OpenReasonDrift | BudgetNotClosed | OverBudget | HindsightDegraded

  predicate Fails(f: Failure, s: Snapshot, phase: Phase, cfg: Config) {
    match f
    case TotalDrift => |s.rows| != cfg.approvedTotal
    case CapExceeded => CountIn(s.rows, ATTEMPTED) > cfg.stageCap
    case TooManyActive => CountIn(s.rows, ACTIVE) > cfg.maxAgentActive
    case ErrorRows => CountIn(s.rows, ERRORS) > 0
    case ClosedOutsideRunning => phase.name != Running && !s.open
    case ClosedAtCap => phase.name == Running && CountIn(s.rows, ATTEMPTED) >= cfg.stageCap && !s.open
    case PocketClosed => !s.env.pocketOpen
    case PocketBusy => s.env.pocketBusy
    case MaxInFlightDrift => s.env.maxInFlight != Some(cfg.maxAgentActive)
    case RunLimitDrift => s.env.runLimit != Some(cfg.stageCap)
    case HindsightFailedDrift => s.env.hindsightFailed != cfg.expectedHindsightFailed
    case HindsightActiveOutsideRunning => phase.name != Running && s.env.hindsightActive > 0
    case ProviderFanOut => s.env.providerInFlight > cfg.maxProviderInFlight
    case OpenReasonDrift => phase.budget == BudgetOpen && (!s.env.budgetCircuitOpen || !s.env.openReasonExpected)
    case BudgetNotClosed => phase.budget == BudgetClosed && (s.env.budgetCircuitOpen || !s.env.budgetHealthy)
    case OverBudget => Projection(s.env.spent, CountIn(s.rows, {Succeeded}), cfg) > cfg.hardBudget
    case HindsightDegraded => !s.env.hindsightHealthy
  }

  /** Everything a snapshot must show, field by field. */
  ghost predicate QuickClean(s: Snapshot, phase: Phase, cfg: Config) {
    && |s.rows| == cfg.approvedTotal
    && CountIn(s.rows, {Failed, Blocked}) == 0
    && CountIn(s.rows, {Submitting, Submitted}) <= cfg.maxAgentActive
    && CountIn(s.rows, {Submitting, Submitted, Succeeded, Failed, Blocked}) <= cfg.stageCap
    // the agent circuit is closed only while running below the cap
    && (s.open || (phase.name == Running && CountIn(s.rows, {Submitting, Submitted, Succeeded, Failed, Blocked}) < cfg.stageCap))
    && s.env.pocketOpen && !s.env.pocketBusy
    && s.env.maxInFlight == Some(cfg.maxAgentActive) && s.env.runLimit == Some(cfg.stageCap)
    && s.env.hindsightFailed == cfg.expectedHindsightFailed && s.env.hindsightHealthy
    && (s.env.hindsightActive == 0 || phase.name == Running)
    && s.env.providerInFlight <= cfg.maxProviderInFlight
    // the spending circuit is as the phase expects it
    && (phase.budget == BudgetOpen ==> s.env.budgetCircuitOpen && s.env.openReasonExpected)
    && (phase.budget == BudgetClosed ==> !s.env.budgetCircuitOpen && s.env.budgetHealthy)
    && s.env.spent + (cfg.approvedTotal - CountIn(s.rows, {Succeeded})) as real * cfg.remainingCost <= cfg.hardBudget
  }

  ghost predicate NoneOf(checks: set<Failure>, s: Snapshot, phase: Phase, cfg: Config) {
    forall f: Failure | f in checks :: !Fails(f, s, phase, cfg)
  }

  lemma NoneOfAll(s: Snapshot, phase: Phase, cfg: Config)
    ensures (forall f: Failure :: !Fails(f, s, phase, cfg)) <==>
            NoneOf(OUTBOX_CHECKS, s, phase, cfg) && NoneOf(SIDECAR_CHECKS, s, phase, cfg) && NoneOf(SPEND_CHECKS, s, phase, cfg)
  {
    if NoneOf(OUTBOX_CHECKS, s, phase, cfg) && NoneOf(SIDECAR_CHECKS, s, phase, cfg) && NoneOf(SPEND_CHECKS, s, phase, cfg) {
      forall f: Failure ensures !Fails(f, s, phase, cfg) { EveryCheckIsListed(f); }
    }
  }

  lemma OutboxClean(s: Snapshot, phase: Phase, cfg: Config)
    ensures NoneOf(OUTBOX_CHECKS, s, phase, cfg) <==>
      && |s.rows| == cfg.approvedTotal && CountIn(s.rows, {Failed, Blocked}) == 0
      && CountIn(s.rows, {Submitting, Submitted}) <= cfg.maxAgentActive
      && CountIn(s.rows, {Submitting, Submitted, Succeeded, Failed, Blocked}) <= cfg.stageCap
      && (s.open || (phase.name == Running && CountIn(s.rows, {Submitting, Submitted, Succeeded, Failed, Blocked}) < cfg.stageCap))
  {
    if NoneOf(OUTBOX_CHECKS, s, phase, cfg) {
      assert !Fails(TotalDrift, s, phase, cfg) && !Fails(CapExceeded, s, phase, cfg) && !Fails(TooManyActive, s, phase, cfg);
      assert !Fails(ErrorRows, s, phase, cfg) && !Fails(ClosedOutsideRunning, s, phase, cfg) && !Fails(ClosedAtCap, s, phase, cfg);
    }
  }

  lemma SidecarsClean(s: Snapshot, phase: Phase, cfg: Config)
    ensures NoneOf(SIDECAR_CHECKS, s, phase, cfg) <==>
      && s.env.pocketOpen && !s.env.pocketBusy
      && s.env.maxInFlight == Some(cfg.maxAgentActive) && s.env.runLimit == Some(cfg.stageCap)
      && s.env.hindsightFailed == cfg.expectedHindsightFailed && (s.env.hindsightActive == 0 || phase.name == Running)
  {
    if NoneOf(SIDECAR_CHECKS, s, phase, cfg) {
      assert !Fails(PocketClosed, s, phase, cfg) && !Fails(PocketBusy, s, phase, cfg) && !Fails(MaxInFlightDrift, s, phase, cfg);
      assert !Fails(RunLimitDrift, s, phase, cfg) && !Fails(HindsightFailedDrift, s, phase, cfg);
      assert !Fails(HindsightActiveOutsideRunning, s, phase, cfg);
    }
  }

  lemma SpendClean(s: Snapshot, phase: Phase, cfg: Config)
    ensures NoneOf(SPEND_CHECKS, s, phase, cfg) <==>
      && s.env.providerInFlight <= cfg.maxProviderInFlight && s.env.hindsightHealthy
      && (phase.budget == BudgetOpen ==> s.env.budgetCircuitOpen && s.env.openReasonExpected)
      && (phase.budget == BudgetClosed ==> !s.env.budgetCircuitOpen && s.env.budgetHealthy)
      && Projection(s.env.spent, CountIn(s.rows, {Succeeded}), cfg) <= cfg.hardBudget
  {
    if NoneOf(SPEND_CHECKS, s, phase, cfg) {
      assert !Fails(ProviderFanOut, s, phase, cfg) && !Fails(OpenReasonDrift, s, phase, cfg) && !Fails(BudgetNotClosed, s, phase, cfg);
      assert !Fails(OverBudget, s, phase, cfg) && !Fails(HindsightDegraded, s, phase, cfg);
    }
  }

  lemma ProjectionIs(s: Snapshot, cfg: Config)
    requires |s.rows| == cfg.approvedTotal
    ensures Projection(s.env.spent, CountIn(s.rows, {Succeeded}), cfg)
            == s.env.spent + (cfg.approvedTotal - CountIn(s.rows, {Succeeded})) as real * cfg.remainingCost
  {
    CountAll(s.rows);
    AttemptedSplits(s.rows);
  }

  /** No check fails exactly when the snapshot shows everything it must. */
  lemma NoneFailsIff(s: Snapshot, phase: Phase, cfg: Config)
    ensures (forall f: Failure :: !Fails(f, s, phase, cfg)) <==> QuickClean(s, phase, cfg)
  {
    NoneOfAll(s, phase, cfg);
    OutboxClean(s, phase, cfg);
    SidecarsClean(s, phase, cfg);
    SpendClean(s, phase, cfg);
    if |s.rows| == cfg.approvedTotal { ProjectionIs(s, cfg); }
  }

  /** The checks gone through so far have each been reported if they fail. */
  ghost predicate Reported(fs: seq<Failure>, done: set<Failure>, s: Snapshot, phase: Phase, cfg: Config) {
    forall f: Failure :: f in fs <==> f in done && Fails(f, s, phase, cfg)
  }

  function Noted(fs: seq<Failure>, ghost done: set<Failure>, failed: bool, f: Failure,
                 ghost s: Snapshot, ghost phase: Phase, ghost cfg: Config): (r: seq<Failure>)
    requires Reported(fs, done, s, phase, cfg) && (failed <==> Fails(f, s, phase, cfg))
    ensures Reported(r, done + {f}, s, phase, cfg)
  {
    if failed then fs + [f] else fs
  }

  method OutboxFailures(s: Snapshot, phase: Phase, cfg: Config) returns (fs: seq<Failure>)
    ensures Reported(fs, OUTBOX_CHECKS, s, phase, cfg)
  {
    var attempted, active, errors := CountIn(s.rows, ATTEMPTED), CountIn(s.rows, ACTIVE), CountIn(s.rows, ERRORS);
    ghost var done: set<Failure> := {};
    fs := [];
    fs, done := Noted(fs, done, |s.rows| != cfg.approvedTotal, TotalDrift, s, phase, cfg), done + {TotalDrift};
    fs, done := Noted(fs, done, attempted > cfg.stageCap, CapExceeded, s, phase, cfg), done + {CapExceeded};
    fs, done := Noted(fs, done, active > cfg.maxAgentActive, TooManyActive, s, phase, cfg), done + {TooManyActive};
    fs, done := Noted(fs, done, errors > 0, ErrorRows, s, phase, cfg), done + {ErrorRows};
    fs, done := Noted(fs, done, phase.name != Running && !s.open, ClosedOutsideRunning, s, phase, cfg), done + {ClosedOutsideRunning};
    fs, done := Noted(fs, done, phase.name == Running && attempted >= cfg.stageCap && !s.open, ClosedAtCap, s, phase, cfg), done + {ClosedAtCap};
    assert done == OUTBOX_CHECKS;
  }

  method SidecarFailures(s: Snapshot, phase: Phase, cfg: Config) returns (fs: seq<Failure>)
    ensures Reported(fs, SIDECAR_CHECKS, s, phase, cfg)
  {
    ghost var done: set<Failure> := {};
    fs := [];
    fs, done := Noted(fs, done, !s.env.pocketOpen, PocketClosed, s, phase, cfg), done + {PocketClosed};
    fs, done := Noted(fs, done, s.env.pocketBusy, PocketBusy, s, phase, cfg), done + {PocketBusy};
    fs, done := Noted(fs, done, s.env.maxInFlight != Some(cfg.maxAgentActive), MaxInFlightDrift, s, phase, cfg), done + {MaxInFlightDrift};
    fs, done := Noted(fs, done, s.env.runLimit != Some(cfg.stageCap), RunLimitDrift, s, phase, cfg), done + {RunLimitDrift};
    fs, done := Noted(fs, done, s.env.hindsightFailed != cfg.expectedHindsightFailed, HindsightFailedDrift, s, phase, cfg), done + {HindsightFailedDrift};
    fs, done := Noted(fs, done, phase.name != Running && s.env.hindsightActive > 0, HindsightActiveOutsideRunning, s, phase, cfg), done + {HindsightActiveOutsideRunning};
    assert done == SIDECAR_CHECKS;
  }

  method SpendFailures(s: Snapshot, phase: Phase, cfg: Config) returns (fs: seq<Failure>)
    ensures Reported(fs, SPEND_CHECKS, s, phase, cfg)
  {
    ghost var done: set<Failure> := {};
    fs := [];
    fs, done := Noted(fs, done, s.env.providerInFlight > cfg.maxProviderInFlight, ProviderFanOut, s, phase, cfg), done + {ProviderFanOut};
    fs, done := Noted(fs, done, phase.budget == BudgetOpen && (!s.env.budgetCircuitOpen || !s.env.openReasonExpected), OpenReasonDrift, s, phase, cfg), done + {OpenReasonDrift};
    fs, done := Noted(fs, done, phase.budget == BudgetClosed && (s.env.budgetCircuitOpen || !s.env.budgetHealthy), BudgetNotClosed, s, phase, cfg), done + {BudgetNotClosed};
    fs, done := Noted(fs, done, Projection(s.env.spent, CountIn(s.rows, {Succeeded}), cfg) > cfg.hardBudget, OverBudget, s, phase, cfg), done + {OverBudget};
    fs, done := Noted(fs, done, !s.env.hindsightHealthy, HindsightDegraded, s, phase, cfg), done + {HindsightDegraded};
    assert done == SPEND_CHECKS;
  }

  const OUTBOX_CHECKS: set<Failure> := {TotalDrift, CapExceeded, TooManyActive, ErrorRows, ClosedOutsideRunning, ClosedAtCap}
  const SIDECAR_CHECKS: set<Failure> := {PocketClosed, PocketBusy, MaxInFlightDrift, RunLimitDrift, HindsightFailedDrift, HindsightActiveOutsideRunning}
  const SPEND_CHECKS: set<Failure> := {ProviderFanOut, OpenReasonDrift, BudgetNotClosed, OverBudget, HindsightDegraded}

  lemma EveryCheckIsListed(f: Failure)
    ensures f in OUTBOX_CHECKS || f in SIDECAR_CHECKS || f in SPEND_CHECKS
  {
    match f
    case TotalDrift => assert f in OUTBOX_CHECKS;
    case CapExceeded => assert f in OUTBOX_CHECKS;
    case TooManyActive => assert f in OUTBOX_CHECKS;
    case ErrorRows => assert f in OUTBOX_CHECKS;
    case ClosedOutsideRunning => assert f in OUTBOX_CHECKS;
    case ClosedAtCap => assert f in OUTBOX_CHECKS;
    case PocketClosed => assert f in SIDECAR_CHECKS;
    case PocketBusy => assert f in SIDECAR_CHECKS;
    case MaxInFlightDrift => assert f in SIDECAR_CHECKS;
    case RunLimitDrift => assert f in SIDECAR_CHECKS;
    case HindsightFailedDrift => assert f in SIDECAR_CHECKS;
    case HindsightActiveOutsideRunning => assert f in SIDECAR_CHECKS;
    case ProviderFanOut => assert f in SPEND_CHECKS;
    case OpenReasonDrift => assert f in SPEND_CHECKS;
    case BudgetNotClosed => assert f in SPEND_CHECKS;
    case OverBudget => assert f in SPEND_CHECKS;
    case HindsightDegraded => assert f in SPEND_CHECKS;
  }

  /** Every failing check is reported, and nothing else. */
  method QuickFailures(s: Snapshot, phase: Phase, cfg: Config) returns (failures: seq<Failure>)
    ensures forall f: Failure :: f in failures <==> Fails(f, s, phase, cfg)
    ensures failures == [] <==> QuickClean(s, phase, cfg)
  {
    var outbox := OutboxFailures(s, phase, cfg);
    var sidecars := SidecarFailures(s, phase, cfg);
    var spend := SpendFailures(s, phase, cfg);
    failures := outbox + sidecars + spend;
    forall f: Failure ensures f in OUTBOX_CHECKS || f in SIDECAR_CHECKS || f in SPEND_CHECKS { EveryCheckIsListed(f); }
    CleanWhenNoneReported(s, phase, cfg, failures);
  }

  lemma CleanWhenNoneReported(s: Snapshot, phase: Phase, cfg: Config, failures: seq<Failure>)
    requires forall f: Failure :: f in failures <==> Fails(f, s, phase, cfg)
    ensures failures == [] <==> QuickClean(s, phase, cfg)
  {
    NoneFailsIff(s, phase, cfg);
    if failures != [] { assert failures[0] in failures; }
  }

  /** Nothing of the batch is lost or unaccounted for: every row is queued, active or succeeded. */
  lemma CleanAccountsForTheBatch(s: Snapshot, phase: Phase, cfg: Config)
    requires QuickClean(s, phase, cfg)
    ensures CountIn(s.rows, {Queued}) + CountIn(s.rows, ACTIVE) + CountIn(s.rows, {Succeeded}) == cfg.approvedTotal
    ensures CountIn(s.rows, ACTIVE) <= cfg.maxAgentActive && CountIn(s.rows, ERRORS) == 0
  {
    CountAll(s.rows);
    AttemptedSplits(s.rows);
    CountSplits(s.rows, {Submitting}, {Submitted});
    assert {Submitting} + {Submitted} == ACTIVE;
  }

  /** Finishing the whole batch stays within the hard budget while no document costs more than the conservative estimate. */
  lemma CleanCanAffordTheRest(s: Snapshot, phase: Phase, cfg: Config, costs: seq<real>)
    requires QuickClean(s, phase, cfg)
    requires |costs| == cfg.approvedTotal - CountIn(s.rows, {Succeeded}) && forall c | c in costs :: c <= cfg.remainingCost
    ensures s.env.spent + Total(costs) <= cfg.hardBudget
  {
    CleanAccountsForTheBatch(s, phase, cfg);
    ProjectionCoversTheRest(s.env.spent, CountIn(s.rows, {Succeeded}), cfg, costs);
  }

  // ---------------------------------------------------------------- the controller

  datatype SettleResult = Skipped | RefreshFailed | CheckFailed | SettledOk

  datatype ResumeResult = Refused | RefreshRaised | RecountFailed | FinalAuditFailed | Resumed

  datatype Wave = Exact | Exceeded | Waiting

  datatype ReleaseResult = NotReleased | CrashedAfterClose | FirstWaveFailed | Released

  /** Which of a tick's external calls succeed. */
  datatype TickFate = TickFate(
    snapshotOk: bool, stageOpenOk: bool, auditDue: bool, auditClean: bool,
    proven: bool, refreshOk: bool, settledAuditClean: bool,
    probeAnswers: bool, handlerOpenOk: bool)

  /** A clean snapshot at the spend of the window's first. */
  ghost predicate StableAt(window: seq<Readings>, i: nat, rows: seq<Row>, open: bool, phase: Phase, cfg: Config)
    requires i < |window|
  {
    QuickClean(Snapshot(rows, open, window[i]), phase, cfg) && window[i].spent == window[0].spent
  }

  ghost predicate Stable(window: seq<Readings>, rows: seq<Row>, open: bool, phase: Phase, cfg: Config) {
    forall i | 0 <= i < |window| :: StableAt(window, i, rows, open, phase, cfg)
  }

  /** Every row is queued or succeeded, and the remote holds exactly the succeeded documents. */
  predicate Reconciled(rows: seq<Row>, remote: seq<DocId>, cfg: Config) {
    && CountIn(rows, {Queued}) + CountIn(rows, {Succeeded}) == cfg.approvedTotal == |rows|
    && ToSet(remote) == DocsIn(rows, {Succeeded}) && CountIn(rows, {Succeeded}) == |remote|
  }

  lemma ResumeReconciles(rows: seq<Row>, remote: seq<DocId>, name: PhaseName, open: bool, env: Readings, cfg: Config)
    requires cfg.stageCap <= cfg.approvedTotal && SetsClean(rows, remote, cfg.approvedTotal)
    requires GateFailure(name, open, rows, env.hindsightActive, env.providerInFlight, |remote|, cfg).None?
    ensures var expected := CountIn(rows, {Succeeded}) + CountIn(rows, {Submitted});
            && expected == |remote| <= cfg.approvedTotal && Reconciled(Refreshed(rows), remote, cfg)
            && Counts(Refreshed(rows)) == ExpectedCounts(cfg.approvedTotal, expected)
  {
    ResumeArithmetic(rows, remote, name, open, env.hindsightActive, env.providerInFlight, cfg);
    RefreshedSingles(rows);
    CountAll(Refreshed(rows));
    AttemptedSplits(Refreshed(rows));
  }

  /** The set checks of a full audit, row by row. */
  ghost predicate AuditClean(rows: seq<Row>, remote: seq<DocId>, approvedTotal: nat) {
    && |rows| == approvedTotal && (forall i, j | 0 <= i < j < |rows| :: rows[i].document != rows[j].document)
    && (forall i, j | 0 <= i < j < |remote| :: remote[i] != remote[j])
    && (forall r | r in rows && r.state == Succeeded :: r.document in remote)
    && (forall d | d in remote :: exists r | r in rows :: r.document == d && r.state in {Succeeded, Submitting, Submitted})
  }

  lemma InRows(rows: seq<Row>, states: set<RowState>, d: DocId)
    ensures d in DocsIn(rows, states) <==> exists r | r in rows :: r.document == d && r.state in states
  {
    DocsInMember(rows, states, d);
    if r :| r in rows && r.document == d && r.state in states {
      var i :| 0 <= i < |rows| && rows[i] == r;
      assert rows[i].document == d && rows[i].state in states;
    }
  }

  lemma SetsAreClean(rows: seq<Row>, remote: seq<DocId>, approvedTotal: nat)
    ensures SetsClean(rows, remote, approvedTotal) <==> AuditClean(rows, remote, approvedTotal)
  {
    forall d ensures d in DocsIn(rows, {Succeeded}) <==> exists r | r in rows :: r.document == d && r.state in {Succeeded}
             ensures d in DocsIn(rows, PERMITTED) <==> exists r | r in rows :: r.document == d && r.state in {Succeeded, Submitting, Submitted}
             ensures d in ToSet(remote) <==> d in remote
    {
      InRows(rows, {Succeeded}, d);
      InRows(rows, PERMITTED, d);
      ToSetMember(remote, d);
    }
    if SetsClean(rows, remote, approvedTotal) {
      forall r | r in rows && r.state == Succeeded ensures r.document in remote {
        assert r.document in DocsIn(rows, {Succeeded});
      }
    }
  }

  class Recovery {
    const cfg: Config
    var phase: Phase
    var open: bool
    var rows: seq<Row>
    var remote: seq<DocId>

    constructor (cfg: Config, phase: Phase, open: bool, rows: seq<Row>, remote: seq<DocId>)
      ensures this.cfg == cfg && this.phase == phase && this.open == open && this.rows == rows && this.remote == remote
    {
      this.cfg, this.phase, this.open, this.rows, this.remote := cfg, phase, open, rows, remote;
    }

    method EmergencyOpen(ok: bool)
      modifies `open
      ensures open == (old(open) || ok)
    {
      if ok { open := true; }
    }

    /** The gate's proof of the cap: whether every submitted row's operation completed and its document is present is read from the remote. */
    function PreproveCap(env: Readings, proven: bool): bool
      reads this
    {
      && CountIn(rows, ATTEMPTED) == cfg.stageCap && env.hindsightActive == 0 && env.providerInFlight == 0
      && if CountIn(rows, {Submitted}) == 0 then CountIn(rows, {Succeeded}) == cfg.stageCap else proven
    }

    /** The refresh commits row by row, so one that raises keeps what it changed until then. */
    method RefreshRaises()
      modifies `rows
      ensures PartlyRefreshed(old(rows), rows)
    {
      assert PartlyRefreshed(rows, rows);
      var left: seq<Row> :| PartlyRefreshed(rows, left);
      rows := left;
    }

    /** The phase is saved as settled before the counts are checked, so a failed check is not retried by later ticks. */
    method SettleCap(env: Readings, proven: bool, refreshOk: bool, auditClean: bool) returns (r: SettleResult)
      modifies `phase, `rows
      ensures r == Skipped <==> old(phase.name != CapHold || !PreproveCap(env, proven))
      // it goes ahead only from a hold at the cap with nothing at work, every submitted row proven if there is one
      ensures r != Skipped <==> old(phase.name == CapHold && CountIn(rows, {Submitting, Submitted, Succeeded, Failed, Blocked}) == cfg.stageCap
                                    && env.hindsightActive == 0 && env.providerInFlight == 0
                                    && (CountIn(rows, {Submitted}) == 0 ==> CountIn(rows, {Succeeded}) == cfg.stageCap)
                                    && (CountIn(rows, {Submitted}) > 0 ==> proven))
      ensures r.Skipped? ==> phase == old(phase) && rows == old(rows)
      ensures r.RefreshFailed? ==> phase == old(phase) && PartlyRefreshed(old(rows), rows)
      ensures r.CheckFailed? || r.SettledOk? ==> phase == old(phase).(name := Settled, expectedSucceeded := cfg.stageCap)
      ensures r.CheckFailed? || r.SettledOk? ==> rows == Refreshed(old(rows))
      ensures r.RefreshFailed? <==> !r.Skipped? && !refreshOk
      ensures r.SettledOk? ==> auditClean && |remote| == cfg.stageCap
      ensures old(|rows|) == cfg.approvedTotal && auditClean && |remote| == cfg.stageCap && (r.SettledOk? || r.CheckFailed?) ==>
        (r.SettledOk? <==> CountIn(old(rows), {Submitting}) == 0 && CountIn(old(rows), ERRORS) == 0 && 0 < cfg.stageCap < cfg.approvedTotal)
    {
      if phase.name != CapHold || !PreproveCap(env, proven) { return Skipped; }
      if !refreshOk {
        RefreshRaises();
        return RefreshFailed;
      }
      if |rows| == cfg.approvedTotal { SettlementIff(rows, cfg); }
      rows := Refreshed(rows);
      phase := phase.(name := Settled, expectedSucceeded := cfg.stageCap);
      if cfg.stageCap > cfg.approvedTotal || Counts(rows) != ExpectedCounts(cfg.approvedTotal, cfg.stageCap) { return CheckFailed; }
      if |remote| != cfg.stageCap || !auditClean { return CheckFailed; }
      r := SettledOk;
    }

    /** The running phase has attempted exactly the cap. */
    predicate AtCap()
      reads this
    {
      phase.name == Running && CountIn(rows, {Submitting, Submitted, Succeeded, Failed, Blocked}) == cfg.stageCap
    }

    /** The batch is below the cap, or at it outside the running phase. */
    ghost predicate WithinCap()
      reads this
    {
      var attempted := CountIn(rows, {Submitting, Submitted, Succeeded, Failed, Blocked});
      attempted < cfg.stageCap || (attempted == cfg.stageCap && phase.name != Running)
    }

    function Wanted(): Action
      reads this
    {
      StageAction(CountIn(rows, ATTEMPTED), phase.name, cfg.stageCap)
    }

    /** The checks of a tick: quick checks, the hold at the cap, the full audit when it is due. */
    method Inspect(env: Readings, fate: TickFate) returns (ok: bool)
      modifies `phase, `open
      ensures ok <==> (fate.auditDue ==> fate.auditClean) && old(QuickClean(Snapshot(rows, open, env), phase, cfg))
                      && (old(WithinCap()) || fate.stageOpenOk)
      ensures open == (old(open) || (!old(WithinCap()) && fate.stageOpenOk))
      ensures phase == if old(AtCap()) && fate.stageOpenOk
                       then old(phase.(name := CapHold, expectedSucceeded := CountIn(rows, {Succeeded}))) else old(phase)
    {
      var snapshot := Snapshot(rows, open, env);
      var failures := QuickFailures(snapshot, phase, cfg);
      ok := failures == [] && (fate.auditDue ==> fate.auditClean);
      var action := Wanted();
      if action != Continue {
        EmergencyOpen(fate.stageOpenOk);
        if !fate.stageOpenOk { return false; }
        if action == Open {
          phase := phase.(name := CapHold, expectedSucceeded := CountIn(rows, {Succeeded}));
        }
      }
    }

    /**
     * One guard tick. If emergency opening works, it ends with the circuit open, or the phase is running below the cap
     * and every quick check held of the tick's snapshot.
     */
    method GuardTick(env: Readings, fate: TickFate) returns (healthy: bool)
      modifies `phase, `rows, `open
      ensures fate.handlerOpenOk && !open ==> phase == old(phase) && phase.name == Running
      ensures fate.handlerOpenOk && !open ==> CountIn(old(rows), {Submitting, Submitted, Succeeded, Failed, Blocked}) < cfg.stageCap
      ensures fate.handlerOpenOk && !open ==> old(QuickClean(Snapshot(rows, open, env), phase, cfg))
      ensures old(open) ==> open
      ensures healthy ==> fate.snapshotOk && (fate.auditDue ==> fate.auditClean) && old(QuickClean(Snapshot(rows, open, env), phase, cfg))
      ensures fate.snapshotOk && fate.stageOpenOk && old(AtCap()) ==>
        phase.name == Settled || phase == old(phase.(name := CapHold, expectedSucceeded := CountIn(rows, {Succeeded})))
      ensures old(!AtCap() && phase.name != CapHold) ==> phase == old(phase)
      ensures rows == old(rows) || (phase.name == Settled && rows == Refreshed(old(rows)))
        || (phase.name == CapHold && !fate.refreshOk && PartlyRefreshed(old(rows), rows))
      ensures old(phase.name == Running && !AtCap() && QuickClean(Snapshot(rows, open, env), phase, cfg)) ==>
        (fate.snapshotOk && (fate.auditDue ==> fate.auditClean) ==>
          healthy && phase == old(phase) && rows == old(rows) && open == old(open))
    {
      healthy := false;
      if fate.snapshotOk {
        healthy := CheckAndSettle(env, fate);
      }
      if !healthy { HandleFailure(fate); }
    }

    method CheckAndSettle(env: Readings, fate: TickFate) returns (ok: bool)
      modifies `phase, `rows, `open
      ensures ok ==> (fate.auditDue ==> fate.auditClean) && old(QuickClean(Snapshot(rows, open, env), phase, cfg))
      ensures open == (old(open) || (!old(WithinCap()) && fate.stageOpenOk))
      ensures ok ==> open || old(WithinCap())
      ensures fate.stageOpenOk && old(AtCap()) ==>
        phase.name == Settled || phase == old(phase.(name := CapHold, expectedSucceeded := CountIn(rows, {Succeeded})))
      ensures old(!AtCap() && phase.name != CapHold) ==> phase == old(phase)
      ensures rows == old(rows) || (phase.name == Settled && rows == Refreshed(old(rows)))
        || (phase.name == CapHold && !fate.refreshOk && PartlyRefreshed(old(rows), rows))
      ensures old(phase.name != CapHold && WithinCap()) ==> rows == old(rows)
      ensures old(phase.name != CapHold && WithinCap() && QuickClean(Snapshot(rows, open, env), phase, cfg)) ==>
        (ok <==> (fate.auditDue ==> fate.auditClean))
    {
      ok := Inspect(env, fate);
      if ok && phase.name == CapHold {
        var settled := SettleCap(env, fate.proven, fate.refreshOk, fate.settledAuditClean);
        ok := settled.Skipped? || settled.SettledOk?;
      }
    }

    /** The exception handler: nothing to do when the circuit is proven open. */
    method HandleFailure(fate: TickFate)
      modifies `open
      ensures open == (old(open) || fate.handlerOpenOk)
    {
      var provenOpen := fate.probeAnswers && open;
      if !provenOpen { EmergencyOpen(fate.handlerOpenOk); }
    }

    // -------------------------------------------------------------- resuming and releasing

    /**
     * Reconciles an open hold below the cap. With no other writer behind the open circuit, a refresh that succeeds always
     * passes the recount that follows it.
     */
    method PrepareResume(env: Readings, auditClean: bool, proofsOk: bool, refreshOk: bool, finalAuditClean: bool) returns (r: ResumeResult)
      requires cfg.stageCap <= cfg.approvedTotal
      modifies `phase, `rows
      ensures r != RecountFailed
      ensures r == Refused <==> old(!auditClean || !AuditClean(rows, remote, cfg.approvedTotal) || !proofsOk
                                    || GateFailure(phase.name, open, rows, env.hindsightActive, env.providerInFlight, |remote|, cfg).Some?)
      ensures r == RefreshRaised <==> r != Refused && !refreshOk
      ensures r == Resumed <==> r != Refused && refreshOk && finalAuditClean
      ensures r == Refused ==> phase == old(phase) && rows == old(rows)
      ensures r == RefreshRaised ==> phase == old(phase) && PartlyRefreshed(old(rows), rows)
      ensures r == Resumed || r == FinalAuditFailed ==> old(phase).name == Running && open && rows == Refreshed(old(rows))
      ensures r == Resumed || r == FinalAuditFailed ==>
        phase == old(phase).(name := Ready, budget := BudgetClosed, expectedSucceeded := |remote|)
      ensures r == Resumed || r == FinalAuditFailed ==> Reconciled(rows, remote, cfg)
    {
      SetsAreClean(rows, remote, cfg.approvedTotal);
      if !auditClean || !SetsClean(rows, remote, cfg.approvedTotal) { return Refused; }
      var gate := GateFailure(phase.name, open, rows, env.hindsightActive, env.providerInFlight, |remote|, cfg);
      if gate.Some? || !proofsOk { return Refused; }
      if !refreshOk {
        RefreshRaises();
        return RefreshRaised;
      }
      var expected := CountIn(rows, {Succeeded}) + CountIn(rows, {Submitted});
      ResumeReconciles(rows, remote, phase.name, open, env, cfg);
      rows := Refreshed(rows);
      phase := phase.(name := Ready, budget := BudgetClosed, expectedSucceeded := expected);
      if Counts(rows) != ExpectedCounts(cfg.approvedTotal, expected) { return RecountFailed; }
      if |remote| != expected { return RecountFailed; }
      r := if finalAuditClean then Resumed else FinalAuditFailed;
    }

    /** Closes the agent circuit, which must be exactly one open row. */
    method CloseAgent() returns (ok: bool)
      modifies `open
      ensures ok == old(open) && !open
    {
      ok := open;
      open := false;
    }

    /** Ten clean snapshots at one spend, with clean full audits at both ends. */
    method StableWindow(window: seq<Readings>, auditsClean: bool) returns (stable: bool)
      requires |window| == 10
      ensures stable <==> auditsClean && Stable(window, rows, open, phase, cfg)
    {
      var i := 0;
      while i < 10
        invariant i <= 10
        invariant forall j | 0 <= j < i :: StableAt(window, j, rows, open, phase, cfg)
      {
        var snapshot := Snapshot(rows, open, window[i]);
        var failures := QuickFailures(snapshot, phase, cfg);
        if 0 < i { assert StableAt(window, i - 1, rows, open, phase, cfg); }
        if failures != [] || (0 < i && window[i].spent != window[i - 1].spent) {
          assert !StableAt(window, i, rows, open, phase, cfg);
          return false;
        }
        i := i + 1;
      }
      stable := auditsClean;
    }

    /** What one look at the first wave decides: exactly the permitted size, too much, or nothing yet. */
    function Look(baseline: nat, seen: seq<Row>, providerInFlight: nat): Wave {
      var attempted, active := CountIn(seen, ATTEMPTED), CountIn(seen, ACTIVE);
      if attempted == baseline + cfg.maxAgentActive && active == cfg.maxAgentActive && providerInFlight <= cfg.maxProviderInFlight then Exact
      else if attempted >= baseline + cfg.maxAgentActive || active > cfg.maxAgentActive || providerInFlight > cfg.maxProviderInFlight then Exceeded
      else Waiting
    }

    /** Some look was exact and none before it decided anything. */
    ghost predicate ExactAt(baseline: nat, polls: seq<(seq<Row>, nat)>, i: nat)
      requires i < |polls|
    {
      Look(baseline, polls[i].0, polls[i].1) == Exact && forall j | 0 <= j < i :: Look(baseline, polls[j].0, polls[j].1) == Waiting
    }

    ghost predicate WaveSucceeds(baseline: nat, polls: seq<(seq<Row>, nat)>) {
      exists i: nat :: i < |polls| && ExactAt(baseline, polls, i)
    }

    /** Every look at the wave until one decides; running out of looks fails too. */
    method WatchFirstWave(baseline: nat, polls: seq<(seq<Row>, nat)>, openOk: bool) returns (ok: bool)
      modifies `open, `rows
      ensures ok <==> WaveSucceeds(baseline, polls)
      ensures ok ==> open == old(open) && exists p | p in polls :: p.0 == rows && Look(baseline, p.0, p.1) == Exact
      ensures !ok ==> open == (old(open) || openOk)
    {
      var i := 0;
      while i < |polls|
        invariant i <= |polls| && open == old(open)
        invariant forall j | 0 <= j < i :: Look(baseline, polls[j].0, polls[j].1) == Waiting
      {
        rows := polls[i].0;
        var attempted, active, provider := CountIn(rows, ATTEMPTED), CountIn(rows, ACTIVE), polls[i].1;
        if attempted == baseline + cfg.maxAgentActive {
          if active != cfg.maxAgentActive || provider > cfg.maxProviderInFlight {
            EmergencyOpen(openOk);
            return false;
          }
          assert polls[i] in polls && ExactAt(baseline, polls, i);
          return true;
        }
        if attempted > baseline + cfg.maxAgentActive || active > cfg.maxAgentActive || provider > cfg.maxProviderInFlight {
          EmergencyOpen(openOk);
          return false;
        }
        i := i + 1;
      }
      EmergencyOpen(openOk);
      ok := false;
    }

    /**
     * Staged release. The circuit is closed only out of an open hold whose ten snapshots were clean; the process may die
     * before the phase is saved. Polls are what the worker has done by each look at the first wave.
     */
    method Release(window: seq<Readings>, auditsClean: bool, dies: bool, polls: seq<(seq<Row>, nat)>, openOk: bool) returns (r: ReleaseResult)
      requires |window| == 10
      modifies `phase, `open, `rows
      ensures r == NotReleased <==> !(old(phase).name == Ready && old(phase).budget == BudgetClosed && auditsClean
                                      && Stable(window, old(rows), old(open), old(phase), cfg))
      ensures r == NotReleased ==> phase == old(phase) && rows == old(rows) && open == old(open)
      ensures r != NotReleased ==> old(open) && (r == CrashedAfterClose <==> dies)
      ensures r == CrashedAfterClose ==> phase == old(phase) && rows == old(rows) && !open
      ensures r == Released || r == FirstWaveFailed ==> phase == old(phase).(name := Running, watchdogArmed := true)
      ensures r == Released || r == FirstWaveFailed ==> (r == Released <==> WaveSucceeds(CountIn(old(rows), {Succeeded}), polls))
      ensures r == Released ==> !open
      ensures r == FirstWaveFailed ==> open == openOk
    {
      if phase.name != Ready || phase.budget != BudgetClosed { return NotReleased; }
      var stable := StableWindow(window, auditsClean);
      if !stable { return NotReleased; }
      assert StableAt(window, 0, rows, open, phase, cfg);
      var baseline := CountIn(rows, {Succeeded});
      var closed := CloseAgent();
      if dies { return CrashedAfterClose; }
      phase := phase.(name := Running, watchdogArmed := true);
      var ok := WatchFirstWave(baseline, polls, openOk);
      r := if ok then Released else FirstWaveFailed;
    }
  }

  /**
   * A release that dies between closing the circuit and saving the phase is reopened by the next tick, whatever the
   * worker and the remote did in between.
   */
  method CrashedReleaseIsReopened(c: Recovery, window: seq<Readings>, auditsClean: bool, rows: seq<Row>, remote: seq<DocId>,
                                  env: Readings, fate: TickFate) returns (r: ReleaseResult)
    requires |window| == 10 && fate.handlerOpenOk
    modifies c
    ensures r == CrashedAfterClose || r == NotReleased
    ensures r == CrashedAfterClose ==> c.open
    ensures r == NotReleased ==> old(c.open) ==> c.open
  {
    r := c.Release(window, auditsClean, true, [], true);
    c.rows, c.remote := rows, remote;
    var healthy := c.GuardTick(env, fate);
  }
}
