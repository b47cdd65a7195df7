/** The recovery controller's audits and gates: what counting and set inclusion alone decide. */
module RecoveryAudit {
  import opened Options

  type DocId = nat
  type OpId = nat

  datatype RowState = Queued | Submitting | Submitted | Succeeded | Failed | Blocked

  datatype Row = Row(document: DocId, state: RowState, operation: Option<OpId>, hashSubmitted: bool)

  datatype PhaseName = Ready | Running | CapHold | Settled | Other

  datatype Config = Config(approvedTotal: nat, stageCap: nat, maxAgentActive: nat, maxProviderInFlight: nat,
                           expectedHindsightFailed: nat, hardBudget: real, remainingCost: real)

  const ATTEMPTED: set<RowState> := {Submitting, Submitted, Succeeded, Failed, Blocked}
  const ACTIVE: set<RowState> := {Submitting, Submitted}
  const ERRORS: set<RowState> := {Failed, Blocked}
  const PERMITTED: set<RowState> := {Succeeded, Submitting, Submitted}

  // ---------------------------------------------------------------- counting rows

  function CountIn(rows: seq<Row>, states: set<RowState>): nat {
    if rows == [] then 0
    else CountIn(rows[..|rows| - 1], states) + if rows[|rows| - 1].state in states then 1 else 0
  }

  function DocsIn(rows: seq<Row>, states: set<RowState>): set<DocId> {
    if rows == [] then {}
    else DocsIn(rows[..|rows| - 1], states) + if rows[|rows| - 1].state in states then {rows[|rows| - 1].document} else {}
  }

  /** A GROUP BY leaves out the states nobody is in. */
  function Counts(rows: seq<Row>): map<RowState, nat> {
    map s | s in {Queued, Submitting, Submitted, Succeeded, Failed, Blocked} && CountIn(rows, {s}) > 0 :: CountIn(rows, {s})
  }

  predicate DistinctDocs(rows: seq<Row>) {
    forall i, j | 0 <= i < j < |rows| :: rows[i].document != rows[j].document
  }

  lemma {:induction false} DocsInMember(rows: seq<Row>, states: set<RowState>, d: DocId)
    ensures d in DocsIn(rows, states) <==> exists i :: 0 <= i < |rows| && rows[i].document == d && rows[i].state in states
  {
    if rows != [] {
      var front := rows[..|rows| - 1];
      DocsInMember(front, states, d);
      if i :| 0 <= i < |rows| && rows[i].document == d && rows[i].state in states {
        if i < |front| { assert front[i].document == d; }
      }
    }
  }

  /** Distinct documents are counted by their rows. */
  lemma {:induction false} DocsAreCounted(rows: seq<Row>, states: set<RowState>)
    requires DistinctDocs(rows)
    ensures |DocsIn(rows, states)| == CountIn(rows, states)
  {
    if rows != [] {
      var front, l := rows[..|rows| - 1], rows[|rows| - 1];
      DocsAreCounted(front, states);
      DocsInMember(front, states, l.document);
    }
  }

  lemma {:induction false} CountSplits(rows: seq<Row>, a: set<RowState>, b: set<RowState>)
    requires a !! b
    ensures CountIn(rows, a + b) == CountIn(rows, a) + CountIn(rows, b)
  {
    if rows != [] { CountSplits(rows[..|rows| - 1], a, b); }
  }

  lemma {:induction false} DocsSplit(rows: seq<Row>, a: set<RowState>, b: set<RowState>)
    ensures DocsIn(rows, a + b) == DocsIn(rows, a) + DocsIn(rows, b)
  {
    if rows != [] { DocsSplit(rows[..|rows| - 1], a, b); }
  }

  lemma AttemptedUnlessQueued(s: RowState)
    ensures s in ATTEMPTED <==> s !in {Queued}
  {
    match s
    case Queued => assert s !in ATTEMPTED;
    case _ => assert s in ATTEMPTED;
  }

  lemma {:induction false} CountAll(rows: seq<Row>)
    ensures |rows| == CountIn(rows, {Queued}) + CountIn(rows, ATTEMPTED)
  {
    if rows != [] {
      CountAll(rows[..|rows| - 1]);
      AttemptedUnlessQueued(rows[|rows| - 1].state);
    }
  }

  lemma AttemptedSplits(rows: seq<Row>)
    ensures CountIn(rows, ATTEMPTED) == CountIn(rows, {Submitting}) + CountIn(rows, {Submitted})
                                      + CountIn(rows, {Succeeded}) + CountIn(rows, ERRORS)
    ensures CountIn(rows, ERRORS) == CountIn(rows, {Failed}) + CountIn(rows, {Blocked})
  {
    CountSplits(rows, {Failed}, {Blocked});
    assert {Failed} + {Blocked} == ERRORS;
    CountSplits(rows, {Succeeded}, ERRORS);
    CountSplits(rows, {Submitted}, {Succeeded} + ERRORS);
    CountSplits(rows, {Submitting}, {Submitted} + ({Succeeded} + ERRORS));
    assert {Submitting} + ({Submitted} + ({Succeeded} + ERRORS)) == ATTEMPTED;
  }

  // ---------------------------------------------------------------- the audit's set checks

  function ToSet(s: seq<DocId>): set<DocId> {
    if s == [] then {} else ToSet(s[..|s| - 1]) + {s[|s| - 1]}
  }

  predicate Distinct(s: seq<DocId>) {
    forall i, j | 0 <= i < j < |s| :: s[i] != s[j]
  }

  lemma {:induction false} ToSetMember(s: seq<DocId>, d: DocId)
    ensures d in ToSet(s) <==> d in s
  {
    if s != [] {
      assert s == s[..|s| - 1] + [s[|s| - 1]];
      ToSetMember(s[..|s| - 1], d);
    }
  }

  lemma {:induction false} DistinctSize(s: seq<DocId>)
    requires Distinct(s)
    ensures |ToSet(s)| == |s|
  {
    if s != [] {
      DistinctSize(s[..|s| - 1]);
      ToSetMember(s[..|s| - 1], s[|s| - 1]);
    }
  }

  /** The set checks of a full audit, all of them passing. */
  predicate SetsClean(rows: seq<Row>, remote: seq<DocId>, approvedTotal: nat) {
    && DistinctDocs(rows) && |rows| == approvedTotal
    && Distinct(remote)
    && DocsIn(rows, {Succeeded}) <= ToSet(remote)
    && ToSet(remote) <= DocsIn(rows, PERMITTED)
  }

  // ---------------------------------------------------------------- resuming below the cap

  datatype GateReason = NotRunning | CircuitClosed | AtCap | ActiveOrErrors | AttemptedDrift | HindsightActive | ProviderActive | RemoteDrift

  /** Why an open hold below the stage cap cannot be reconciled, in the order the gate checks. */
  function GateFailure(phase: PhaseName, open: bool, rows: seq<Row>, hindsightActive: nat, providerInFlight: nat,
                       remoteDocuments: nat, cfg: Config): (r: Option<GateReason>)
    ensures r.None? <==>
      && phase == Running && open && CountIn(rows, ATTEMPTED) < cfg.stageCap
      && CountIn(rows, {Submitting}) == 0 && 1 <= CountIn(rows, {Submitted}) <= cfg.maxAgentActive && CountIn(rows, ERRORS) == 0
      && hindsightActive == 0 && providerInFlight == 0
      && remoteDocuments == CountIn(rows, {Succeeded}) + CountIn(rows, {Submitted})
  {
    AttemptedSplits(rows);
    var attempted, succeeded, submitted := CountIn(rows, ATTEMPTED), CountIn(rows, {Succeeded}), CountIn(rows, {Submitted});
    if phase != Running then Some(NotRunning)
    else if !open then Some(CircuitClosed)
    else if attempted >= cfg.stageCap then Some(AtCap)
    else if CountIn(rows, {Submitting}) > 0 || !(1 <= submitted <= cfg.maxAgentActive) || CountIn(rows, ERRORS) > 0 then Some(ActiveOrErrors)
    else if attempted != succeeded + submitted then Some(AttemptedDrift)
    else if hindsightActive > 0 then Some(HindsightActive)
    else if providerInFlight > 0 then Some(ProviderActive)
    else if remoteDocuments != succeeded + submitted then Some(RemoteDrift)
    else None
  }

  lemma SubsetOfSameSize(a: set<DocId>, b: set<DocId>)
    requires a <= b && |a| == |b|
    ensures a == b
  {
    assert b == a + (b - a);
    assert |b| == |a| + |b - a|;
  }

  lemma NoneInState(rows: seq<Row>, states: set<RowState>)
    requires CountIn(rows, states) == 0
    ensures DocsIn(rows, states) == {}
  {
    if rows != [] { NoneInState(rows[..|rows| - 1], states); }
  }

  /** A clean audit behind a passing gate leaves no room: every submitted document is already at the remote. */
  lemma GateForcesPresence(rows: seq<Row>, remote: seq<DocId>, phase: PhaseName, open: bool, hindsightActive: nat, providerInFlight: nat, cfg: Config)
    requires SetsClean(rows, remote, cfg.approvedTotal)
    requires GateFailure(phase, open, rows, hindsightActive, providerInFlight, |remote|, cfg).None?
    ensures ToSet(remote) == DocsIn(rows, {Succeeded, Submitted})
  {
    DocsSplit(rows, {Submitting}, {Succeeded, Submitted});
    assert {Submitting} + {Succeeded, Submitted} == PERMITTED;
    NoneInState(rows, {Submitting});
    DistinctSize(remote);
    CountSplits(rows, {Succeeded}, {Submitted});
    assert {Succeeded} + {Submitted} == {Succeeded, Submitted};
    DocsAreCounted(rows, {Succeeded, Submitted});
    SubsetOfSameSize(ToSet(remote), DocsIn(rows, {Succeeded, Submitted}));
  }

  // ---------------------------------------------------------------- refreshing submitted rows

  function Refresh(r: Row): Row {
    if r.state == Submitted then r.(state := Succeeded) else r
  }

  /** Every submitted row becomes succeeded. */
  function Refreshed(rows: seq<Row>): seq<Row> {
    if rows == [] then [] else Refreshed(rows[..|rows| - 1]) + [Refresh(rows[|rows| - 1])]
  }

  function Before(states: set<RowState>): set<RowState> {
    (states - {Submitted}) + if Succeeded in states then {Submitted} else {}
  }

  lemma {:induction false} RefreshedCounts(rows: seq<Row>, states: set<RowState>)
    ensures CountIn(Refreshed(rows), states) == CountIn(rows, Before(states))
    ensures DocsIn(Refreshed(rows), states) == DocsIn(rows, Before(states))
    ensures |Refreshed(rows)| == |rows|
  {
    if rows != [] {
      RefreshedCounts(rows[..|rows| - 1], states);
      assert Refreshed(rows)[..|rows| - 1] == Refreshed(rows[..|rows| - 1]);
    }
  }

  /** A refresh that raised may have changed submitted rows already, each in a statement of its own; no other row changes. */
  predicate PartlyRefreshed(rows: seq<Row>, after: seq<Row>) {
    |after| == |rows| && forall i | 0 <= i < |rows| :: OnlySubmitted(rows[i], after[i])
  }

  predicate OnlySubmitted(a: Row, b: Row) {
    b == a || (a.state == Submitted && b.document == a.document)
  }

  /** As long as it got, such a refresh completed the rows it changed. */
  predicate RefreshedSoFar(rows: seq<Row>, after: seq<Row>) {
    |after| == |rows| && forall i | 0 <= i < |rows| :: after[i] == rows[i] || after[i] == Refresh(rows[i])
  }

  /** An interrupted refresh can be repeated: it ends in the same rows, and as many rows count as attempted in between. */
  lemma {:induction false} InterruptedRefreshResumes(rows: seq<Row>, after: seq<Row>)
    requires RefreshedSoFar(rows, after)
    ensures PartlyRefreshed(rows, after) && Refreshed(after) == Refreshed(rows) && CountIn(after, ATTEMPTED) == CountIn(rows, ATTEMPTED)
  {
    if rows != [] {
      var n := |rows| - 1;
      assert forall i | 0 <= i < n :: rows[..n][i] == rows[i] && after[..n][i] == after[i];
      InterruptedRefreshResumes(rows[..n], after[..n]);
      assert after[n] == rows[n] || after[n] == Refresh(rows[n]);
    }
  }

  /** What the settled outbox must count, in the form the controller compares: a dictionary with both keys. */
  function ExpectedCounts(total: nat, succeeded: nat): map<RowState, nat>
    requires succeeded <= total
  {
    map[Queued := total - succeeded, Succeeded := succeeded]
  }

  lemma CountsAre(rows: seq<Row>, s: RowState)
    ensures s in Counts(rows) <==> CountIn(rows, {s}) > 0
    ensures s in Counts(rows) ==> Counts(rows)[s] == CountIn(rows, {s})
  {
  }

  /** The recount holds exactly when everything is queued or succeeded, the number is right, and neither group is empty. */
  lemma RecountIff(rows: seq<Row>, total: nat, succeeded: nat)
    requires |rows| == total && succeeded <= total
    ensures Counts(rows) == ExpectedCounts(total, succeeded) <==>
      && 0 < succeeded < total && CountIn(rows, {Succeeded}) == succeeded
      && CountIn(rows, {Submitting}) == 0 && CountIn(rows, {Submitted}) == 0 && CountIn(rows, ERRORS) == 0
  {
    CountAll(rows);
    AttemptedSplits(rows);
    var m, e := Counts(rows), ExpectedCounts(total, succeeded);
    forall s ensures (s in m <==> CountIn(rows, {s}) > 0) && (s in m ==> m[s] == CountIn(rows, {s})) { CountsAre(rows, s); }
    if m == e {
      assert Queued in e && Succeeded in e && Submitting !in e && Submitted !in e && Failed !in e && Blocked !in e;
    } else if 0 < succeeded < total && CountIn(rows, {Succeeded}) == succeeded
              && CountIn(rows, {Submitting}) == 0 && CountIn(rows, {Submitted}) == 0 && CountIn(rows, ERRORS) == 0 {
      assert forall s: RowState :: s in m <==> s in e;
    }
  }

  lemma RefreshedSingles(rows: seq<Row>)
    ensures var r := Refreshed(rows);
            && CountIn(r, {Succeeded}) == CountIn(rows, {Succeeded}) + CountIn(rows, {Submitted})
            && CountIn(r, {Submitted}) == 0 && CountIn(r, {Submitting}) == CountIn(rows, {Submitting})
            && CountIn(r, ERRORS) == CountIn(rows, ERRORS) && |r| == |rows|
            && DocsIn(r, {Succeeded}) == DocsIn(rows, {Succeeded, Submitted})
  {
    RefreshedCounts(rows, {Succeeded});
    RefreshedCounts(rows, {Submitted});
    RefreshedCounts(rows, {Submitting});
    RefreshedCounts(rows, ERRORS);
    assert Before({Succeeded}) == {Succeeded} + {Submitted} == {Succeeded, Submitted};
    assert Before({Submitted}) == {} && Before({Submitting}) == {Submitting} && Before(ERRORS) == ERRORS;
    CountSplits(rows, {Succeeded}, {Submitted});
    CountNothing(rows);
  }

  lemma {:induction false} CountNothing(rows: seq<Row>)
    ensures CountIn(rows, {}) == 0
  {
    if rows != [] { CountNothing(rows[..|rows| - 1]); }
  }

  /** Refreshing behind the gate makes the recount pass, with the remote holding exactly the succeeded documents. */
  lemma ResumeArithmetic(rows: seq<Row>, remote: seq<DocId>, phase: PhaseName, open: bool, hindsightActive: nat, providerInFlight: nat, cfg: Config)
    requires cfg.stageCap <= cfg.approvedTotal
    requires SetsClean(rows, remote, cfg.approvedTotal)
    requires GateFailure(phase, open, rows, hindsightActive, providerInFlight, |remote|, cfg).None?
    ensures var after := Refreshed(rows); var expected := CountIn(rows, {Succeeded}) + CountIn(rows, {Submitted});
            && expected <= cfg.approvedTotal && Counts(after) == ExpectedCounts(cfg.approvedTotal, expected)
            && |remote| == expected && ToSet(remote) == DocsIn(after, {Succeeded})
  {
    GateForcesPresence(rows, remote, phase, open, hindsightActive, providerInFlight, cfg);
    RefreshedSingles(rows);
    AttemptedSplits(rows);
    RecountIff(Refreshed(rows), cfg.approvedTotal, CountIn(rows, {Succeeded}) + CountIn(rows, {Submitted}));
  }

  // ---------------------------------------------------------------- settling at the cap

  /**
   * Refreshing a batch attempted exactly to the cap settles it exactly when no row is still submitting, failed or
   * blocked and the cap leaves at least one row queued.
   */
  lemma SettlementIff(rows: seq<Row>, cfg: Config)
    requires |rows| == cfg.approvedTotal && CountIn(rows, ATTEMPTED) == cfg.stageCap
    ensures cfg.stageCap <= cfg.approvedTotal
    ensures Counts(Refreshed(rows)) == ExpectedCounts(cfg.approvedTotal, cfg.stageCap) <==>
      CountIn(rows, {Submitting}) == 0 && CountIn(rows, ERRORS) == 0 && 0 < cfg.stageCap < cfg.approvedTotal
  {
    CountAll(rows);
    AttemptedSplits(rows);
    RefreshedSingles(rows);
    RecountIff(Refreshed(rows), cfg.approvedTotal, cfg.stageCap);
  }

  // ---------------------------------------------------------------- the spend projection

  function Projection(spent: real, succeeded: nat, cfg: Config): real {
    spent + (if cfg.approvedTotal > succeeded then cfg.approvedTotal - succeeded else 0) as real * cfg.remainingCost
  }

  function Total(costs: seq<real>): real {
    if costs == [] then 0.0 else Total(costs[..|costs| - 1]) + costs[|costs| - 1]
  }

  lemma {:induction false} TotalAtMost(costs: seq<real>, each: real)
    requires forall c | c in costs :: c <= each
    ensures Total(costs) <= |costs| as real * each
  {
    if costs != [] {
      var front := costs[..|costs| - 1];
      assert forall c | c in front :: c in costs;
      TotalAtMost(front, each);
      assert |costs| as real == |front| as real + 1.0;
      assert costs[|costs| - 1] in costs;
      assert |costs| as real * each == |front| as real * each + each;
    }
  }

  /** A projection within the budget covers the rest of the batch, as long as no document costs more than the conservative estimate. */
  lemma ProjectionCoversTheRest(spent: real, succeeded: nat, cfg: Config, costs: seq<real>)
    requires Projection(spent, succeeded, cfg) <= cfg.hardBudget && succeeded <= cfg.approvedTotal
    requires |costs| == cfg.approvedTotal - succeeded && forall c | c in costs :: c <= cfg.remainingCost
    ensures spent + Total(costs) <= cfg.hardBudget
  {
    TotalAtMost(costs, cfg.remainingCost);
  }

  datatype Action = Violation | Open | Continue

  function StageAction(attempted: nat, phase: PhaseName, cap: nat): Action {
    if attempted > cap then Violation
    else if phase == Running && attempted == cap then Open
    else Continue
  }
}
