/** The canary retain controller as a transition system over its durable state file: adoption of remote
    operations, submission, one explicit retry, crashes and stops at any point, any number of restarts. */
module RetainSystem {
  import opened Options

  type DocId = nat
  type OpId = nat

  datatype Phase = RetryPending | Submitting | Submitted | Succeeded | Failed

  datatype Doc = Doc(phase: Phase, operation: Option<OpId>, workers: set<OpId>, retries: nat, adopted: bool)

  type Documents = map<DocId, Doc>

  datatype Remote = Completed | Gone(auth: bool) | Running

  function Find(ds: Documents, d: DocId): Option<Doc> {
    if d in ds then Some(ds[d]) else None
  }

  predicate Terminal(p: Phase) {
    p.Succeeded? || p.Failed?
  }

  predicate Available(v: Option<Doc>) {
    v.None? || v.value.phase.RetryPending?
  }

  function Retries(v: Option<Doc>): nat {
    if v.Some? then v.value.retries else 0
  }

  // ---------------------------------------------------------------- what the controller does to one document

  function StageRetry(v: Doc): Doc {
    if v.retries >= 1 then v
    else v.(phase := RetryPending, operation := None, workers := {}, retries := v.retries + 1)
  }

  function Loaded(v: Doc, retryFailed: bool): Doc {
    if retryFailed && v.phase.Failed? then StageRetry(v) else v
  }

  function LoadAll(ds: Documents, retryFailed: bool): Documents {
    map d | d in ds :: Loaded(ds[d], retryFailed)
  }

  /** Whether an active remote operation may be taken over for this document; `children` are those of its own operation. */
  predicate MayAdopt(v: Option<Doc>, op: OpId, children: set<OpId>) {
    v.Some? ==>
      && !Terminal(v.value.phase)
      && (v.value.operation.Some? && v.value.operation.value != op ==> op in children)
  }

  function Adopted(v: Option<Doc>, op: OpId): Doc {
    match v
    case None => Doc(Submitted, Some(op), {}, 0, true)
    case Some(x) =>
      if x.operation.Some? && x.operation.value != op then
        x.(phase := Submitted, workers := x.workers + {op}, adopted := true)
      else
        x.(phase := Submitted, operation := Some(op), adopted := true)
  }

  function Refreshed(v: Doc, remote: Remote, retryFailed: bool): Doc {
    match remote
    case Completed => v.(phase := Succeeded)
    case Gone(_) =>
      if retryFailed && v.retries < 1 then StageRetry(v.(phase := Failed)) else v.(phase := Failed)
    case Running => v
  }

  function Claimed(v: Option<Doc>): Doc {
    Doc(Submitting, None, {}, Retries(v), false)
  }

  /** None stands for a retain call that raised. */
  function Returned(v: Doc, answer: Option<OpId>): Doc {
    if answer.Some? then v.(phase := Submitted, operation := answer) else v.(phase := Failed)
  }

  // ---------------------------------------------------------------- the system

  datatype Place = Looping | Claiming(doc: DocId) | Calling(doc: DocId)

  datatype Process = Down | Up(documents: Documents, retryFailed: bool, place: Place)

  /** `retained` counts retain calls, `changes` the state changes that reached the file. */
  datatype System = System(file: Documents, process: Process, retained: map<DocId, nat>, changes: map<DocId, nat>)

  datatype Event =
    | Start(retryFailed: bool)
    | Stop
    | Adopt(doc: DocId, op: OpId, children: set<OpId>)
    | Refresh(doc: DocId, remote: Remote)
    | Persist
    | Claim(doc: DocId)
    | SaveClaim
    | Call(answer: Option<OpId>)

  predicate Enabled(s: System, e: Event) {
    match e
    case Start(_) => s.process.Down?
    case Stop => s.process.Up?
    case Adopt(d, op, children) => s.process.Up? && s.process.place.Looping? && MayAdopt(Find(s.process.documents, d), op, children)
    case Refresh(d, _) =>
      s.process.Up? && s.process.place.Looping? && d in s.process.documents && s.process.documents[d].phase.Submitted?
    case Persist => s.process.Up? && s.process.place.Looping?
    case Claim(d) =>
      && s.process.Up? && s.process.place.Looping? && Available(Find(s.process.documents, d))
      && forall k | k in s.process.documents :: !s.process.documents[k].phase.Submitting?
    case SaveClaim => s.process.Up? && s.process.place.Claiming?
    case Call(_) => s.process.Up? && s.process.place.Calling? && s.process.place.doc in s.process.documents
  }

  function Count(m: map<DocId, nat>, d: DocId): nat {
    if d in m then m[d] else 0
  }

  predicate SameState(a: Option<Doc>, b: Option<Doc>) {
    a == b || (a.Some? && b.Some? && a.value.phase == b.value.phase && a.value.retries == b.value.retries)
  }

  function Saved(s: System): System
    requires s.process.Up?
  {
    var ds := s.process.documents;
    s.(file := ds,
       changes := map d | d in s.changes.Keys + s.file.Keys + ds.Keys ::
         Count(s.changes, d) + if SameState(Find(s.file, d), Find(ds, d)) then 0 else 1)
  }

  function Step(s: System, e: Event): System
    requires Enabled(s, e)
  {
    match e
    case Start(retryFailed) => s.(process := Up(LoadAll(s.file, retryFailed), retryFailed, Looping))
    case Stop => s.(process := Down)
    case Adopt(d, op, _) =>
      s.(process := s.process.(documents := s.process.documents[d := Adopted(Find(s.process.documents, d), op)]))
    case Refresh(d, remote) =>
      s.(process := s.process.(documents := s.process.documents[d := Refreshed(s.process.documents[d], remote, s.process.retryFailed)]))
    case Persist => Saved(s)
    case Claim(d) =>
      s.(process := s.process.(documents := s.process.documents[d := Claimed(Find(s.process.documents, d))], place := Claiming(d)))
    case SaveClaim => Saved(s).(process := s.process.(place := Calling(s.process.place.doc)))
    case Call(answer) =>
      var d := s.process.place.doc;
      s.(process := s.process.(documents := s.process.documents[d := Returned(s.process.documents[d], answer)], place := Looping),
         retained := s.retained[d := Count(s.retained, d) + 1])
  }

  ghost predicate Run(s: System, es: seq<Event>, t: System)
    decreases |es|
  {
    if es == [] then s == t
    else Enabled(s, es[0]) && Run(Step(s, es[0]), es[1..], t)
  }

  const INITIAL := System(map[], Down, map[], map[])

  // ---------------------------------------------------------------- retain calls and progress

  /** How many retain calls the recorded state of a document accounts for. */
  function Allowance(v: Option<Doc>): nat {
    if Available(v) then Retries(v) else 1 + Retries(v)
  }

  const MAX_CHANGES := 7

  function PhaseRank(v: Option<Doc>): nat {
    if Available(v) then 3
    else match v.value.phase
         case Submitting => 2
         case Submitted => 1
         case _ => 0
  }

  /** Lexicographic: retries still to come, then the phase. */
  function Rank(v: Option<Doc>): int {
    4 * (1 - Retries(v)) + PhaseRank(v)
  }

  /** b is a or a later state of the same document. */
  predicate Later(a: Option<Doc>, b: Option<Doc>) {
    && (SameState(a, b) || Rank(b) < Rank(a))
    && Allowance(a) <= Allowance(b) && Retries(a) <= Retries(b) <= 1
    && (a.Some? ==> b.Some?)
    && (a.Some? && a.value.phase.Succeeded? ==> b.value.phase.Succeeded?)
  }

  ghost predicate Safe(s: System) {
    && (forall d :: Retries(Find(s.file, d)) <= 1 && Count(s.retained, d) <= Allowance(Find(s.file, d)))
    && (forall d :: Count(s.changes, d) + Rank(Find(s.file, d)) <= MAX_CHANGES)
    && (s.process.Up? ==>
          && (forall d :: Later(Find(s.file, d), Find(s.process.documents, d)))
          && (s.process.place.Claiming? ==>
                var d := s.process.place.doc;
                && d in s.process.documents && s.process.documents[d].phase.Submitting?
                && Count(s.retained, d) <= s.process.documents[d].retries)
          && (s.process.place.Calling? ==>
                var d := s.process.place.doc;
                && d in s.process.documents && s.process.documents[d].phase.Submitting?
                && s.file == s.process.documents
                && Count(s.retained, d) <= s.process.documents[d].retries))
  }

  lemma LaterTransitive(a: Option<Doc>, b: Option<Doc>, c: Option<Doc>)
    requires Later(a, b) && Later(b, c)
    ensures Later(a, c)
  {
  }

  /** Every single thing the controller does moves a document forward. */
  lemma StepsMoveForward(v: Option<Doc>, d: Doc, remote: Remote, retryFailed: bool, op: OpId, children: set<OpId>, answer: Option<OpId>)
    requires Retries(v) <= 1 && d.retries <= 1
    ensures Later(Some(d), Some(Loaded(d, retryFailed)))
    ensures MayAdopt(v, op, children) ==> Later(v, Some(Adopted(v, op)))
    ensures d.phase.Submitted? ==> Later(Some(d), Some(Refreshed(d, remote, retryFailed)))
    ensures Available(v) ==> Later(v, Some(Claimed(v)))
    ensures d.phase.Submitting? ==> Later(Some(d), Some(Returned(d, answer)))
  {
  }

  lemma UpdateOne(s: System, d: DocId, v: Doc)
    requires Safe(s) && s.process.Up? && Later(Find(s.process.documents, d), Some(v))
    ensures forall k :: Later(Find(s.file, k), Find(s.process.documents[d := v], k))
  {
    forall k ensures Later(Find(s.file, k), Find(s.process.documents[d := v], k)) {
      if k == d { LaterTransitive(Find(s.file, d), Find(s.process.documents, d), Some(v)); }
    }
  }

  lemma SafeStart(s: System, retryFailed: bool)
    requires Safe(s) && Enabled(s, Start(retryFailed))
    ensures Safe(Step(s, Start(retryFailed)))
  {
    var ds := LoadAll(s.file, retryFailed);
    forall d ensures Later(Find(s.file, d), Find(ds, d)) {
      if d in s.file {
        assert Retries(Find(s.file, d)) <= 1;
        StepsMoveForward(None, s.file[d], Running, retryFailed, 0, {}, None);
      }
    }
  }

  lemma SafeSaved(s: System)
    requires Safe(s) && s.process.Up?
    ensures forall d :: Retries(Find(s.process.documents, d)) <= 1
                        && Count(s.retained, d) <= Allowance(Find(s.process.documents, d))
                        && Count(Saved(s).changes, d) + Rank(Find(s.process.documents, d)) <= MAX_CHANGES
                        && Later(Find(s.process.documents, d), Find(s.process.documents, d))
  {
    forall d
      ensures Retries(Find(s.process.documents, d)) <= 1
      ensures Count(s.retained, d) <= Allowance(Find(s.process.documents, d))
      ensures Count(Saved(s).changes, d) + Rank(Find(s.process.documents, d)) <= MAX_CHANGES
    {
      assert Later(Find(s.file, d), Find(s.process.documents, d));
      assert Count(s.changes, d) + Rank(Find(s.file, d)) <= MAX_CHANGES;
      assert Count(s.retained, d) <= Allowance(Find(s.file, d));
    }
  }

  lemma SafeClaim(s: System, d: DocId)
    requires Safe(s) && Enabled(s, Claim(d))
    ensures Safe(Step(s, Claim(d)))
  {
    var v := Find(s.process.documents, d);
    assert Later(Find(s.file, d), v) && Count(s.retained, d) <= Allowance(Find(s.file, d));
    StepsMoveForward(v, Claimed(v), Running, false, 0, {}, None);
    UpdateOne(s, d, Claimed(v));
  }

  lemma SafeCall(s: System, answer: Option<OpId>)
    requires Safe(s) && Enabled(s, Call(answer))
    ensures Safe(Step(s, Call(answer)))
  {
    var d := s.process.place.doc;
    var v := s.process.documents[d];
    assert Later(Find(s.file, d), Some(v));
    StepsMoveForward(None, v, Running, false, 0, {}, answer);
    UpdateOne(s, d, Returned(v, answer));
    var t := Step(s, Call(answer));
    forall k ensures Count(t.retained, k) <= Allowance(Find(t.file, k)) {
      assert Count(s.retained, k) <= Allowance(Find(s.file, k));
    }
  }

  lemma SafeStep(s: System, e: Event)
    requires Safe(s) && Enabled(s, e)
    ensures Safe(Step(s, e))
  {
    match e
    case Start(retryFailed) => SafeStart(s, retryFailed);
    case Stop =>
    case Adopt(d, op, children) =>
      var v := Find(s.process.documents, d);
      assert Later(Find(s.file, d), v);
      StepsMoveForward(v, Adopted(v, op), Running, false, op, children, None);
      UpdateOne(s, d, Adopted(v, op));
    case Refresh(d, remote) =>
      var v := s.process.documents[d];
      assert Later(Find(s.file, d), Some(v));
      StepsMoveForward(None, v, remote, s.process.retryFailed, 0, {}, None);
      UpdateOne(s, d, Refreshed(v, remote, s.process.retryFailed));
    case Persist => SafeSaved(s);
    case Claim(d) => SafeClaim(s, d);
    case SaveClaim => SafeSaved(s);
    case Call(answer) => SafeCall(s, answer);
  }

  lemma {:induction false} SafeAlways(s: System, es: seq<Event>, t: System)
    requires Safe(s) && Run(s, es, t)
    ensures Safe(t)
    decreases |es|
  {
    if es != [] {
      SafeStep(s, es[0]);
      SafeAlways(Step(s, es[0]), es[1..], t);
    }
  }

  /** Retain calls never exceed one plus the explicit retries on file, hence never two; the file of
      any one document changes at most seven times over all runs of the controller. */
  lemma RetainCallsAreBounded(es: seq<Event>, t: System, d: DocId)
    requires Run(INITIAL, es, t)
    ensures Count(t.retained, d) <= 1 + Retries(Find(t.file, d)) <= 2
    ensures Count(t.changes, d) <= 7
  {
    SafeAlways(INITIAL, es, t);
    assert Retries(Find(t.file, d)) <= 1 && Count(t.retained, d) <= Allowance(Find(t.file, d));
    assert Count(t.changes, d) + Rank(Find(t.file, d)) <= MAX_CHANGES;
  }

  // ---------------------------------------------------------------- without --retry-failed

  ghost predicate NeverRetried(s: System) {
    && (forall d :: Retries(Find(s.file, d)) == 0)
    && (s.process.Up? ==> !s.process.retryFailed && forall d :: Retries(Find(s.process.documents, d)) == 0)
  }

  lemma NeverRetriedStep(s: System, e: Event)
    requires NeverRetried(s) && Enabled(s, e) && (e.Start? ==> !e.retryFailed)
    ensures NeverRetried(Step(s, e))
  {
    if e.Start? {
      forall d ensures Retries(Find(LoadAll(s.file, false), d)) == 0 {
        assert Retries(Find(s.file, d)) == 0;
      }
    } else if s.process.Up? {
      var t := Step(s, e);
      if t.process.Up? {
        forall d ensures Retries(Find(t.process.documents, d)) == 0 {
          assert Retries(Find(s.process.documents, d)) == 0;
        }
      }
    }
  }

  lemma {:induction false} NeverRetriedAlways(s: System, es: seq<Event>, t: System)
    requires NeverRetried(s) && Run(s, es, t)
    requires forall i | 0 <= i < |es| :: es[i].Start? ==> !es[i].retryFailed
    ensures NeverRetried(t)
    decreases |es|
  {
    if es != [] {
      assert es[0].Start? ==> !es[0].retryFailed;
      NeverRetriedStep(s, es[0]);
      NeverRetriedAlways(Step(s, es[0]), es[1..], t);
    }
  }

  lemma WithoutRetryAtMostOneCall(es: seq<Event>, t: System, d: DocId)
    requires Run(INITIAL, es, t)
    requires forall i | 0 <= i < |es| :: es[i].Start? ==> !es[i].retryFailed
    ensures Count(t.retained, d) <= 1
  {
    NeverRetriedAlways(INITIAL, es, t);
    RetainCallsAreBounded(es, t, d);
    assert Retries(Find(t.file, d)) == 0;
  }

  // ---------------------------------------------------------------- success is final

  /** Once success is on file it stays on file, through every crash and restart. */
  lemma {:induction false} SucceededIsFinal(s: System, es: seq<Event>, t: System, d: DocId)
    requires Safe(s) && Run(s, es, t)
    requires d in s.file && s.file[d].phase.Succeeded?
    ensures d in t.file && t.file[d].phase.Succeeded?
    decreases |es|
  {
    if es != [] {
      SafeStep(s, es[0]);
      if s.process.Up? { assert Later(Find(s.file, d), Find(s.process.documents, d)); }
      SucceededIsFinal(Step(s, es[0]), es[1..], t, d);
    }
  }

  ghost predicate HeldBy(s: System, d: DocId) {
    && d in s.file && s.file[d].phase.Submitting?
    && (s.process.Up? ==>
          s.process.place.Looping? && d in s.process.documents && s.process.documents[d].phase.Submitting?)
  }

  /** A submission interrupted before its outcome was saved holds up everything: however often the controller is
      restarted, it submits nothing at all until the remote operation of that document is adopted. */
  lemma {:induction false} InterruptedSubmissionHolds(s: System, es: seq<Event>, t: System, d: DocId)
    requires HeldBy(s, d) && Run(s, es, t)
    requires forall i | 0 <= i < |es| :: !(es[i].Adopt? && es[i].doc == d)
    ensures HeldBy(t, d) && t.retained == s.retained
    decreases |es|
  {
    if es != [] {
      assert !(es[0].Adopt? && es[0].doc == d);
      InterruptedSubmissionHolds(Step(s, es[0]), es[1..], t, d);
    }
  }

  // ---------------------------------------------------------------- extending a run

  ghost predicate Reached(s: System) {
    exists es :: Run(INITIAL, es, s)
  }

  lemma {:induction false} RunThen(s: System, es: seq<Event>, t: System, e: Event)
    requires Run(s, es, t) && Enabled(t, e)
    ensures Run(s, es + [e], Step(t, e))
    decreases |es|
  {
    if es == [] {
      assert ([] + [e])[1..] == [];
    } else {
      assert (es + [e])[1..] == es[1..] + [e];
      RunThen(Step(s, es[0]), es[1..], t, e);
    }
  }

  lemma ReachedThen(s: System, e: Event)
    requires Reached(s) && Enabled(s, e)
    ensures Reached(Step(s, e))
  {
    var es :| Run(INITIAL, es, s);
    RunThen(INITIAL, es, s, e);
  }

  /** Success is final in every run that starts from nothing. */
  lemma ReachedSuccessIsFinal(s: System, es: seq<Event>, t: System, d: DocId)
    requires Reached(s) && Run(s, es, t)
    requires d in s.file && s.file[d].phase.Succeeded?
    ensures d in t.file && t.file[d].phase.Succeeded?
  {
    var before :| Run(INITIAL, before, s);
    SafeAlways(INITIAL, before, s);
    SucceededIsFinal(s, es, t, d);
  }

  // ---------------------------------------------------------------- what is recorded is what the remote reported

  /** File or memory has the document in this phase. */
  predicate Shows(s: System, d: DocId, p: Phase) {
    (d in s.file && s.file[d].phase == p) || (s.process.Up? && d in s.process.documents && s.process.documents[d].phase == p)
  }

  lemma {:induction false} SuccessComesFromReport(s: System, es: seq<Event>, t: System, d: DocId)
    requires Run(s, es, t) && Shows(t, d, Succeeded)
    ensures Shows(s, d, Succeeded) || exists i :: 0 <= i < |es| && es[i] == Refresh(d, Completed)
    decreases |es|
  {
    if es != [] {
      var rest := es[1..];
      SuccessComesFromReport(Step(s, es[0]), rest, t, d);
      if i :| 0 <= i < |rest| && rest[i] == Refresh(d, Completed) { assert es[i + 1] == rest[i]; }
    }
  }

  lemma {:induction false} FailureComesFromReport(s: System, es: seq<Event>, t: System, d: DocId)
    requires Run(s, es, t) && Shows(t, d, Failed)
    ensures Shows(s, d, Failed) || exists i :: 0 <= i < |es| && (es[i] == Call(None) || (es[i].Refresh? && es[i].doc == d && es[i].remote.Gone?))
    decreases |es|
  {
    if es != [] {
      var rest := es[1..];
      FailureComesFromReport(Step(s, es[0]), rest, t, d);
      if i :| 0 <= i < |rest| && (rest[i] == Call(None) || (rest[i].Refresh? && rest[i].doc == d && rest[i].remote.Gone?)) {
        assert es[i + 1] == rest[i];
      }
    }
  }

  /** Over every run from nothing: success is on file only if the remote reported the document's operation completed. */
  lemma SucceededOnlyIfCompleted(es: seq<Event>, t: System, d: DocId)
    requires Run(INITIAL, es, t) && d in t.file && t.file[d].phase == Succeeded
    ensures Refresh(d, Completed) in es
  {
    SuccessComesFromReport(INITIAL, es, t, d);
  }

  /** And failure only if the remote reported an operation of it gone, or a retain call raised. */
  lemma FailedOnlyIfGoneOrRaised(es: seq<Event>, t: System, d: DocId)
    requires Run(INITIAL, es, t) && d in t.file && t.file[d].phase == Failed
    ensures exists e :: e in es && (e == Call(None) || e == Refresh(d, Gone(true)) || e == Refresh(d, Gone(false)))
  {
    FailureComesFromReport(INITIAL, es, t, d);
    var i :| 0 <= i < |es| && (es[i] == Call(None) || (es[i].Refresh? && es[i].doc == d && es[i].remote.Gone?));
    assert es[i] in es;
  }

  /** A completed operation that was saved as such stays a success on file over every later run. */
  lemma CompletedStaysSucceeded(s: System, d: DocId, es: seq<Event>, t: System)
    requires Reached(s) && Enabled(s, Refresh(d, Completed)) && Run(Step(Step(s, Refresh(d, Completed)), Persist), es, t)
    ensures d in t.file && t.file[d].phase == Succeeded
  {
    ReachedThen(s, Refresh(d, Completed));
    ReachedThen(Step(s, Refresh(d, Completed)), Persist);
    ReachedSuccessIsFinal(Step(Step(s, Refresh(d, Completed)), Persist), es, t, d);
  }

  // ---------------------------------------------------------------- submitted documents know their operation

  ghost predicate AllOperated(ds: Documents) {
    forall d | d in ds && ds[d].phase.Submitted? :: ds[d].operation.Some?
  }

  ghost predicate Operated(s: System) {
    AllOperated(s.file) && (s.process.Up? ==> AllOperated(s.process.documents))
  }

  lemma {:induction false} OperatedAlways(s: System, es: seq<Event>, t: System)
    requires Operated(s) && Run(s, es, t)
    ensures Operated(t)
    decreases |es|
  {
    if es != [] {
      OperatedAlways(Step(s, es[0]), es[1..], t);
    }
  }

  lemma ReachedIsOperated(s: System)
    requires Reached(s)
    ensures Operated(s)
  {
    var es :| Run(INITIAL, es, s);
    OperatedAlways(INITIAL, es, s);
  }
}
