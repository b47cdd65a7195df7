/** The controller's passes over its mutable document table. Every assignment and every file write is one
    step of RetainSystem, so what is proved there for all runs holds at each crash point of these methods. */
module RetainController {
  import opened Options
  import opened RetainSystem

  const MAX_IN_FLIGHT := 8

  /** An entry of the remote queue, with the document it works for when that is known. */
  datatype Operation = Operation(id: OpId, doc: Option<DocId>)

  function Larger(a: nat, b: nat): nat {
    if a >= b then a else b
  }

  function Submissions(ds: Documents): set<DocId> {
    set d | d in ds && ds[d].phase.Submitted?
  }

  function AvailableItems(items: seq<DocId>, ds: Documents): seq<DocId> {
    if items == [] then []
    else (if Available(Find(ds, items[0])) then [items[0]] else []) + AvailableItems(items[1..], ds)
  }

  ghost predicate Distinct(s: seq<DocId>) {
    forall i, j | 0 <= i < j < |s| :: s[i] != s[j]
  }

  lemma {:induction false} AvailableItemsFilter(items: seq<DocId>, ds: Documents)
    requires Distinct(items)
    ensures var a := AvailableItems(items, ds);
            && Distinct(a)
            && forall d :: d in a <==> d in items && Available(Find(ds, d))
  {
    if items != [] {
      AvailableItemsFilter(items[1..], ds);
      var rest := AvailableItems(items[1..], ds);
      assert items[0] !in items[1..];
      assert forall d :: d in items <==> d == items[0] || d in items[1..];
      if Available(Find(ds, items[0])) {
        var a := [items[0]] + rest;
        forall i, j | 0 <= i < j < |a| ensures a[i] != a[j] {
          if i == 0 { assert a[j] in rest; } else { assert a[i] == rest[i - 1] && a[j] == rest[j - 1]; }
        }
      }
    }
  }

  /** With an available document every available one before it in the corpus is among the first of the list. */
  lemma {:induction false} AvailableInOrder(items: seq<DocId>, ds: Documents, made: nat, i: nat, j: nat)
    requires Distinct(items) && made <= |AvailableItems(items, ds)|
    requires i < j < |items| && Available(Find(ds, items[i]))
    requires items[j] in AvailableItems(items, ds)[..made]
    ensures items[i] in AvailableItems(items, ds)[..made]
  {
    var all, rest := AvailableItems(items, ds), AvailableItems(items[1..], ds);
    if Available(Find(ds, items[0])) {
      assert all == [items[0]] + rest && all[0] == items[0];
      assert made > 0 && all[..made] == [items[0]] + rest[..made - 1];
      if i > 0 { AvailableInOrder(items[1..], ds, made - 1, i - 1, j - 1); }
    } else {
      assert all == rest;
      AvailableInOrder(items[1..], ds, made, i - 1, j - 1);
    }
  }

  ghost predicate Injective(m: map<DocId, OpId>) {
    forall d, e | d in m && e in m && m[d] == m[e] :: d == e
  }

  lemma {:induction false} InjectiveImage(m: map<DocId, OpId>)
    requires Injective(m)
    ensures |m.Values| == |m|
    decreases |m|
  {
    if m == map[] {
      assert m.Values == {};
    } else {
      var d :| d in m;
      var n := m - {d};
      assert n.Keys == m.Keys - {d};
      assert m.Values == n.Values + {m[d]} && m[d] !in n.Values by {
        forall v | v in m.Values ensures v in n.Values + {m[d]} {
          var e :| e in m && m[e] == v;
          if e != d { assert e in n && n[e] == v; }
        }
        forall v | v in n.Values ensures v in m.Values && v != m[d] {
          var e :| e in n && n[e] == v;
          assert e in m && m[e] == v;
        }
      }
      InjectiveImage(n);
    }
  }

  lemma SplitSize<T>(a: set<T>, b: set<T>)
    ensures |a| == |a * b| + |a - b|
  {
    assert a == (a * b) + (a - b);
  }

  lemma SubsetSize<T>(a: set<T>, b: set<T>)
    requires a <= b
    ensures |a| <= |b| && |b - a| == |b| - |a|
  {
    assert b == a + (b - a);
  }

  /** Everything the queue is doing: submissions of ours that it shows, submissions it does not show, and foreign work. */
  lemma InFlightCovers(submitted: set<DocId>, ids: set<OpId>, byDocument: map<DocId, OpId>)
    requires Injective(byDocument) && byDocument.Values <= ids
    ensures |submitted| + |ids - byDocument.Values| <= |ids| + |submitted - byDocument.Keys|
  {
    InjectiveImage(byDocument);
    SplitSize(submitted, byDocument.Keys);
    SubsetSize(submitted * byDocument.Keys, byDocument.Keys);
    SubsetSize(byDocument.Values, ids);
  }

  function IdsOf(active: seq<Operation>): set<OpId> {
    set i | 0 <= i < |active| :: active[i].id
  }

  lemma IdsOfAppend(active: seq<Operation>, x: Operation)
    ensures IdsOf(active + [x]) == IdsOf(active) + {x.id}
  {
    assert (active + [x])[|active|] == x;
    forall id | id in IdsOf(active) ensures id in IdsOf(active + [x]) {
      var i :| 0 <= i < |active| && active[i].id == id;
      assert (active + [x])[i].id == id;
    }
  }

  ghost predicate Consistent(active: seq<Operation>) {
    forall x, y | x in active && y in active && x.id == y.id :: x.doc == y.doc
  }

  predicate IsForeign(x: Operation, items: seq<DocId>) {
    x.doc.None? || x.doc.value !in items
  }

  /** Active operations that work for no document of the corpus. */
  function Foreign(active: seq<Operation>, items: seq<DocId>): set<OpId> {
    set i | 0 <= i < |active| && IsForeign(active[i], items) :: active[i].id
  }

  /** byDocument lists exactly the entries seen so far that work for documents of the corpus. */
  ghost predicate Shown(items: seq<DocId>, seen: seq<Operation>, byDocument: map<DocId, OpId>) {
    && (forall d | d in byDocument :: d in items && Operation(byDocument[d], Some(d)) in seen)
    && (forall x | x in seen && x.doc.Some? && x.doc.value in items ::
          x.doc.value in byDocument && byDocument[x.doc.value] == x.id)
  }

  /** The documents that became listed are submitted now; the others are untouched. */
  ghost predicate TakenOver(before: Documents, after: Documents, listed: map<DocId, OpId>, listed': map<DocId, OpId>) {
    && listed.Keys <= listed'.Keys
    && (forall d | d in listed' :: d in listed || (d in after && after[d].phase.Submitted?))
    && (forall d | d in listed && d in before && before[d].phase.Submitted? :: d in after && after[d].phase.Submitted?)
    && (forall d | d !in listed' :: Find(after, d) == Find(before, d))
  }

  lemma TakenOverTransitive(a: Documents, b: Documents, c: Documents,
                            l: map<DocId, OpId>, m: map<DocId, OpId>, n: map<DocId, OpId>)
    requires TakenOver(a, b, l, m) && TakenOver(b, c, m, n)
    ensures TakenOver(a, c, l, n)
  {
  }

  lemma ShownOnce(items: seq<DocId>, active: seq<Operation>, byDocument: map<DocId, OpId>)
    requires Consistent(active)
    requires Shown(items, active, byDocument)
    ensures Injective(byDocument) && byDocument.Values <= IdsOf(active)
  {
    forall v | v in byDocument.Values ensures v in IdsOf(active) {
      var d :| d in byDocument && byDocument[d] == v;
      var i :| 0 <= i < |active| && active[i] == Operation(v, Some(d));
      assert active[i].id == v;
    }
  }

  lemma ListedIsOurs(items: seq<DocId>, active: seq<Operation>, byDocument: map<DocId, OpId>, d: DocId, i: nat)
    requires Consistent(active) && Shown(items, active, byDocument)
    requires d in byDocument && i < |active| && active[i].id == byDocument[d]
    ensures !IsForeign(active[i], items)
  {
    assert Operation(byDocument[d], Some(d)) in active && active[i] in active;
  }

  /** What is left of the queue after taking our entries out is the foreign work. */
  lemma TheRestIsForeign(items: seq<DocId>, active: seq<Operation>, byDocument: map<DocId, OpId>)
    requires Consistent(active) && Shown(items, active, byDocument)
    ensures IdsOf(active) - byDocument.Values == Foreign(active, items)
  {
    forall id | id in Foreign(active, items) ensures id in IdsOf(active) && id !in byDocument.Values {
      var i: nat :| i < |active| && IsForeign(active[i], items) && active[i].id == id;
      forall d | d in byDocument ensures byDocument[d] != id {
        if byDocument[d] == id { ListedIsOurs(items, active, byDocument, d, i); }
      }
    }
    forall id | id in IdsOf(active) && id !in byDocument.Values ensures id in Foreign(active, items) {
      var i: nat :| i < |active| && active[i].id == id;
      assert active[i] in active;
      assert IsForeign(active[i], items);
    }
  }

  function Listed(s: seq<DocId>): (r: set<DocId>)
    ensures |r| <= |s| && forall d :: d in r <==> d in s
  {
    if s == [] then {} else Listed(s[..|s| - 1]) + {s[|s| - 1]}
  }

  /** Only listed documents changed, so at most that many more are submitted. */
  lemma SubmissionsGrow(before: Documents, after: Documents, changed: seq<DocId>)
    requires forall d | d !in changed :: Find(after, d) == Find(before, d)
    ensures |Submissions(after)| <= |Submissions(before)| + |changed|
  {
    forall d | d in Submissions(after) ensures d in Submissions(before) + Listed(changed) {
      if d !in changed { assert Find(after, d) == Find(before, d); }
    }
    SubsetSize(Submissions(after), Submissions(before) + Listed(changed));
    UnionSize(Submissions(before), Listed(changed));
  }

  lemma UnionSize<T>(a: set<T>, b: set<T>)
    ensures |a + b| <= |a| + |b|
  {
    assert a + b == a + (b - a);
    SubsetSize(b - a, b);
  }

  /** The claim of a submission, and the save that makes it visible before the call. */
  lemma ClaimSteps(s: System, d: DocId) returns (claimed: System, saved: System)
    requires Reached(s) && Enabled(s, Claim(d))
    ensures Reached(claimed) && claimed.file == s.file && claimed.retained == s.retained
    ensures claimed.process == Up(s.process.documents[d := Claimed(Find(s.process.documents, d))], s.process.retryFailed, Claiming(d))
    ensures Reached(saved) && saved.file == claimed.process.documents && saved.retained == s.retained
    ensures saved.process == claimed.process.(place := Calling(d))
  {
    ReachedThen(s, Claim(d));
    claimed := Step(s, Claim(d));
    ReachedThen(claimed, SaveClaim);
    saved := Step(claimed, SaveClaim);
  }

  lemma CallStep(s: System, d: DocId, answer: Option<OpId>) returns (called: System)
    requires Reached(s) && s.process.Up? && s.process.place == Calling(d) && d in s.process.documents
    ensures Reached(called) && called.file == s.file && called.retained == s.retained[d := Count(s.retained, d) + 1]
    ensures called.process == Up(s.process.documents[d := Returned(s.process.documents[d], answer)], s.process.retryFailed, Looping)
  {
    ReachedThen(s, Call(answer));
    called := Step(s, Call(answer));
  }

  lemma PersistStep(s: System) returns (t: System)
    requires Reached(s) && Enabled(s, Persist)
    ensures Reached(t) && t.process == s.process && t.file == s.process.documents && t.retained == s.retained
  {
    ReachedThen(s, Persist);
    t := Step(s, Persist);
  }

  /** These documents are as the remote answered for their operations; the others are untouched. */
  ghost predicate RefreshedBy(remote: OpId -> Remote, retryFailed: bool, before: Documents, after: Documents, asked: set<DocId>) {
    && after.Keys == before.Keys
    && forall d | d in before :: RefreshedOrSame(remote, retryFailed, before[d], after[d], d in asked)
  }

  ghost predicate RefreshedOrSame(remote: OpId -> Remote, retryFailed: bool, a: Doc, b: Doc, asked: bool) {
    if asked then a.operation.Some? && b == Refreshed(a, remote(a.operation.value), retryFailed) else b == a
  }

  /** The remote reports a credential failure for this document and it is not retried. */
  predicate Stops(v: Doc, remote: OpId -> Remote, retryFailed: bool) {
    v.phase.Submitted? && v.operation.Some? && remote(v.operation.value) == Gone(true) && !(retryFailed && v.retries == 0)
  }

  lemma SubmittedIs(ds: Documents)
    ensures Submissions(ds) == set d | d in ds && ds[d].phase == Submitted
  {
  }

  lemma ForeignIs(active: seq<Operation>, items: seq<DocId>)
    ensures Foreign(active, items) == set i | 0 <= i < |active| && (active[i].doc.None? || active[i].doc.value !in items) :: active[i].id
  {
  }

  /** One more call for each of the first documents of the list of available ones, and for no other. */
  ghost predicate FirstCalled(items: seq<DocId>, ds: Documents, before: map<DocId, nat>, after: map<DocId, nat>, made: nat) {
    var available := AvailableItems(items, ds);
    && made <= |available|
    && forall d :: Count(after, d) == Count(before, d) + if d in available[..made] then 1 else 0
  }

  /** A submission was interrupted: whether the call was made is not known. */
  predicate Unresolved(ds: Documents) {
    exists k | k in ds :: ds[k].phase == Submitting
  }

  /** Every document called is one of the corpus that is not in the table or staged for its retry, and is called once. */
  ghost predicate OnceEach(items: seq<DocId>, ds: Documents, before: map<DocId, nat>, after: map<DocId, nat>) {
    forall d :: Count(after, d) == Count(before, d)
                || (Count(after, d) == Count(before, d) + 1 && d in items && (d !in ds || ds[d].phase == RetryPending))
  }

  /** No such document is called before one that is ahead of it in the corpus. */
  ghost predicate CalledInOrder(items: seq<DocId>, ds: Documents, before: map<DocId, nat>, after: map<DocId, nat>) {
    forall i, j | 0 <= i < j < |items| && (items[i] !in ds || ds[items[i]].phase == RetryPending) && Count(after, items[j]) > Count(before, items[j]) ::
      Count(after, items[i]) > Count(before, items[i])
  }

  ghost predicate CountedAtMost(before: map<DocId, nat>, after: map<DocId, nat>, more: nat) {
    forall d :: Count(before, d) <= Count(after, d) <= Count(before, d) + more
  }

  /** Such a document was not called. */
  ghost predicate LeftOut(items: seq<DocId>, ds: Documents, before: map<DocId, nat>, after: map<DocId, nat>) {
    exists d :: d in items && (d !in ds || ds[d].phase == RetryPending) && Count(after, d) == Count(before, d)
  }

  /** With these submissions, the queue and our submitted documents that it does not list make eight. */
  ghost predicate AtCap(ids: set<OpId>, listed: set<DocId>, ds: Documents, made: nat) {
    exists work: set<DocId> :: AreSubmitted(work, ds) && made + |ids| + |work - listed| >= 8
  }

  ghost predicate AreSubmitted(work: set<DocId>, ds: Documents) {
    forall d :: d in work <==> d in ds && ds[d].phase == Submitted
  }

  lemma AtCapFrom(ids: set<OpId>, listed: set<DocId>, ds: Documents, made: nat)
    requires made + |ids| + |Submissions(ds) - listed| >= MAX_IN_FLIGHT
    ensures AtCap(ids, listed, ds, made)
  {
    assert AreSubmitted(Submissions(ds), ds);
  }

  /** Which documents were called, and that none is left over when all available ones were. */
  lemma CalledAreAvailable(items: seq<DocId>, ds: Documents, before: map<DocId, nat>, after: map<DocId, nat>, made: nat)
    requires Distinct(items) && FirstCalled(items, ds, before, after, made)
    ensures OnceEach(items, ds, before, after)
    ensures CalledInOrder(items, ds, before, after)
    ensures LeftOut(items, ds, before, after) ==> made < |AvailableItems(items, ds)|
    ensures CountedAtMost(before, after, if made > 0 then 1 else 0)
  {
    var all := AvailableItems(items, ds);
    AvailableItemsFilter(items, ds);
    forall d ensures Count(after, d) == Count(before, d)
                     || (Count(after, d) == Count(before, d) + 1 && d in items && (d !in ds || ds[d].phase == RetryPending)) {
      if d in all[..made] { assert d in all; }
    }
    forall i, j | 0 <= i < j < |items| && (items[i] !in ds || ds[items[i]].phase == RetryPending) && Count(after, items[j]) > Count(before, items[j])
      ensures Count(after, items[i]) > Count(before, items[i])
    {
      AvailableInOrder(items, ds, made, i, j);
    }
    if made == |all| { assert all[..made] == all; }
  }

  /** What the remote shows and answers during one pass. */
  datatype Round = Round(active: seq<Operation>, children: map<OpId, set<OpId>>, remote: OpId -> Remote, answer: nat -> Option<OpId>)

  class Controller {
    const items: seq<DocId>
    const retryFailed: bool
    var documents: Documents
    var file: Documents
    ghost var sys: System
    /** The most submitted documents and foreign operations there have been at any submission of this process. */
    ghost var peak: nat

    /** Between actions, memory and file are those of a reachable state of the system. */
    ghost predicate Valid()
      reads this`documents, this`file, this`sys
    {
      Reached(sys) && sys.process == Up(documents, retryFailed, Looping) && sys.file == file && Distinct(items)
    }

    /** A fresh process over the state file; a document outside the corpus stops it. */
    static method Load(items: seq<DocId>, file: Documents, retryFailed: bool, ghost down: System) returns (r: Option<Controller>)
      requires Distinct(items) && Reached(down) && down.process.Down? && down.file == file
      ensures r.Some? <==> forall d | d in file :: d in items
      ensures r.Some? ==> fresh(r.value) && r.value.Valid() && r.value.items == items && r.value.retryFailed == retryFailed
                          && r.value.file == r.value.documents && r.value.peak == 0
      // a failed document that was not retried yet is staged for its one retry, if the run allows it; the others are as on file
      ensures r.Some? ==> r.value.documents.Keys == file.Keys
      ensures r.Some? ==> forall d | d in file ::
                if retryFailed && file[d].phase == Failed && file[d].retries == 0
                then r.value.documents[d] == Doc(RetryPending, None, {}, 1, file[d].adopted)
                else r.value.documents[d] == file[d]
    {
      if exists d | d in file :: d !in items { return None; }
      var loaded: Documents := map[];
      var rest := file.Keys;
      while rest != {}
        invariant rest <= file.Keys
        invariant loaded.Keys == file.Keys - rest && forall d | d in loaded :: loaded[d] == Loaded(file[d], retryFailed)
        decreases |rest|
      {
        var d :| d in rest;
        var v := file[d];
        if retryFailed && v.phase.Failed? { v := StageRetry(v); }
        loaded := loaded[d := v];
        rest := rest - {d};
      }
      assert loaded == LoadAll(file, retryFailed);
      var c := new Controller.Create(items, file, retryFailed, loaded, down);
      c.Save();
      r := Some(c);
    }

    constructor Create(items: seq<DocId>, file: Documents, retryFailed: bool, loaded: Documents, ghost down: System)
      requires Distinct(items) && Reached(down) && down.process.Down? && down.file == file && loaded == LoadAll(file, retryFailed)
      ensures Valid() && this.items == items && this.retryFailed == retryFailed && documents == loaded && this.file == file
      ensures peak == 0
    {
      this.items, this.retryFailed, this.documents, this.file, this.peak := items, retryFailed, loaded, file, 0;
      sys := Step(down, Start(retryFailed));
      new;
      ReachedThen(down, Start(retryFailed));
    }

    method Save()
      requires Valid()
      modifies this`file, this`sys
      ensures Valid() && file == documents && sys.retained == old(sys.retained)
    {
      sys := PersistStep(sys);
      file := documents;
    }

    method AdoptOne(d: DocId, op: OpId, kids: set<OpId>) returns (ok: bool)
      requires Valid()
      modifies this`documents, this`sys
      ensures Valid() && sys.retained == old(sys.retained)
      ensures ok <==> MayAdopt(Find(old(documents), d), op, kids)
      ensures documents == if ok then old(documents)[d := Adopted(Find(old(documents), d), op)] else old(documents)
    {
      ok := MayAdopt(Find(documents, d), op, kids);
      if ok {
        ReachedThen(sys, Adopt(d, op, kids));
        sys := Step(sys, Adopt(d, op, kids));
        documents := documents[d := Adopted(Find(documents, d), op)];
      }
    }

    /** Deal with one entry of the queue. */
    method AdoptEntry(ghost seen: seq<Operation>, x: Operation, byDocument: map<DocId, OpId>, children: map<OpId, set<OpId>>)
        returns (ok: bool, byDocument': map<DocId, OpId>)
      requires Valid() && Shown(items, seen, byDocument)
      modifies this`documents, this`sys
      ensures Valid() && sys.retained == old(sys.retained)
      ensures ok ==> Shown(items, seen + [x], byDocument') && TakenOver(old(documents), documents, byDocument, byDocument')
      // foreign work passes
      ensures x.doc.None? || x.doc.value !in items ==> ok && documents == old(documents) && byDocument' == byDocument
      // ours is taken over unless it is a second operation, its document is finished, or it is neither its operation nor a child of it
      ensures x.doc.Some? && x.doc.value in items ==>
                var d := x.doc.value;
                ok <==>
                  && (d in byDocument ==> byDocument[d] == x.id)
                  && (d in old(documents) ==>
                        var v := old(documents)[d];
                        && v.phase != Succeeded && v.phase != Failed
                        && (v.operation.Some? && v.operation.value != x.id ==> v.operation.value in children && x.id in children[v.operation.value]))
      ensures x.doc.Some? && x.doc.value in items && ok ==>
                var d := x.doc.value;
                && d in documents && documents == old(documents)[d := documents[d]]
                && documents[d].phase == Submitted && documents[d].adopted
                && (d in old(documents) && old(documents)[d].operation.Some? ==> documents[d].operation == old(documents)[d].operation)
                && (d in old(documents) && old(documents)[d].operation.None? ==> documents[d].operation == Some(x.id))
                && (d in old(documents) ==> documents[d].retries == old(documents)[d].retries)
                // a child of its operation is noted as a worker
                && documents[d].workers == (if d in old(documents) then old(documents)[d].workers else {})
                                           + (if documents[d].operation == Some(x.id) then {} else {x.id})
                && (d !in old(documents) ==> documents[d].operation == Some(x.id) && documents[d].retries == 0)
    {
      ok, byDocument' := true, byDocument;
      if x.doc.Some? && x.doc.value in items {
        var d := x.doc.value;
        if d in byDocument && byDocument[d] != x.id { ok := false; return; }
        var kids := if d in documents && documents[d].operation.Some? && documents[d].operation.value in children
                    then children[documents[d].operation.value] else {};
        ok := AdoptOne(d, x.id, kids);
        byDocument' := byDocument[d := x.id];
      }
    }

    /** Read the remote queue: take over operations of our documents, or stop on anything inconsistent. */
    method AdoptActive(active: seq<Operation>, children: map<OpId, set<OpId>>)
        returns (stop: bool, ids: set<OpId>, byDocument: map<DocId, OpId>)
      requires Valid()
      requires Consistent(active)
      modifies this`documents, this`file, this`sys
      ensures Valid() && sys.retained == old(sys.retained)
      ensures !stop ==> file == documents && |active| <= MAX_IN_FLIGHT
      ensures !stop ==> ids == IdsOf(active) && Injective(byDocument) && byDocument.Values <= ids
      ensures !stop ==> Shown(items, active, byDocument) && TakenOver(old(documents), documents, map[], byDocument)
    {
      ids, byDocument, stop := {}, map[], |active| > MAX_IN_FLIGHT;
      if stop { return; }
      for i := 0 to |active|
        invariant Valid() && sys.retained == old(sys.retained)
        invariant ids == IdsOf(active[..i])
        invariant Shown(items, active[..i], byDocument) && TakenOver(old(documents), documents, map[], byDocument)
      {
        var x := active[i];
        assert active[..i + 1] == active[..i] + [x];
        IdsOfAppend(active[..i], x);
        ids := ids + {x.id};
        ghost var before, shown := documents, byDocument;
        var ok;
        ok, byDocument := AdoptEntry(active[..i], x, byDocument, children);
        if !ok { stop := true; return; }
        TakenOverTransitive(old(documents), before, documents, map[], shown, byDocument);
      }
      assert active[..|active|] == active;
      ShownOnce(items, active, byDocument);
      Save();
    }

    /** Ask the remote about one submitted document. */
    method RefreshOne(d: DocId, answer: Remote)
      requires Valid() && d in documents && documents[d].phase.Submitted?
      modifies this`documents, this`sys
      ensures Valid() && sys.retained == old(sys.retained)
      ensures documents == old(documents)[d := Refreshed(old(documents)[d], answer, retryFailed)]
    {
      ReachedThen(sys, Refresh(d, answer));
      sys := Step(sys, Refresh(d, answer));
      documents := documents[d := Refreshed(documents[d], answer, retryFailed)];
    }

    /** The status loop. A credential failure is saved and stops the run. */
    method RefreshAll(remote: OpId -> Remote) returns (stop: bool)
      requires Valid() && AllOperated(documents)
      modifies this`documents, this`file, this`sys
      ensures Valid() && sys.retained == old(sys.retained) && file == documents
      ensures documents.Keys == old(documents).Keys
      ensures !stop ==> RefreshedBy(remote, retryFailed, old(documents), documents, Submissions(old(documents)))
      ensures stop <==> exists d :: d in old(documents) && Stops(old(documents)[d], remote, retryFailed)
    {
      var submitted := Submissions(documents);
      var rest := submitted;
      stop := false;
      while rest != {}
        invariant Valid() && sys.retained == old(sys.retained)
        invariant rest <= submitted && RefreshedBy(remote, retryFailed, old(documents), documents, submitted - rest)
        invariant forall d | d in submitted - rest :: !Stops(old(documents)[d], remote, retryFailed)
        decreases |rest|
      {
        var d :| d in rest;
        rest := rest - {d};
        var answer := remote(documents[d].operation.value);
        RefreshOne(d, answer);
        if answer.Gone? && answer.auth && documents[d].phase.Failed? {
          Save();
          stop := true;
          return;
        }
      }
      Save();
    }

    /** Ask the remote about every submitted document. A credential failure is saved and stops the run. */
    method RefreshSubmitted(remote: OpId -> Remote) returns (stop: bool)
      requires Valid()
      modifies this`documents, this`file, this`sys
      ensures Valid() && sys.retained == old(sys.retained) && file == documents
      ensures documents.Keys == old(documents).Keys
      ensures AllOperated(old(documents))
      // completed: succeeded
      ensures !stop ==> forall d | d in old(documents) && old(documents)[d].phase == Submitted && remote(old(documents)[d].operation.value) == Completed ::
                && documents[d].phase == Succeeded
                && documents[d].operation == old(documents)[d].operation && documents[d].retries == old(documents)[d].retries
      // still running, or not submitted: untouched
      ensures !stop ==> forall d | d in old(documents) && (old(documents)[d].phase == Submitted ==> remote(old(documents)[d].operation.value) == Running) ::
                documents[d] == old(documents)[d]
      // gone: its one retry if the run allows it, else failed
      ensures !stop ==> forall d | d in old(documents) && old(documents)[d].phase == Submitted && remote(old(documents)[d].operation.value).Gone? ::
                if retryFailed && old(documents)[d].retries == 0
                then documents[d].phase == RetryPending && documents[d].retries == 1 && documents[d].operation == None
                else documents[d].phase == Failed && documents[d].retries == old(documents)[d].retries
      // the run stops exactly on a credential failure that is not retried
      ensures stop <==> exists d :: d in old(documents) && old(documents)[d].phase == Submitted
                                    && remote(old(documents)[d].operation.value) == Gone(true) && !(retryFailed && old(documents)[d].retries == 0)
    {
      ReachedIsOperated(sys);
      stop := RefreshAll(remote);
      assert forall d | d in old(documents) :: Stops(old(documents)[d], remote, retryFailed) <==>
        old(documents)[d].phase == Submitted && old(documents)[d].operation.Some?
        && remote(old(documents)[d].operation.value) == Gone(true) && !(retryFailed && old(documents)[d].retries == 0);
    }

    /** Submit the first documents of the list; stop at the first call that raises. */
    method SubmitFirst(available: seq<DocId>, count: nat, answer: nat -> Option<OpId>, ghost foreign: nat) returns (stop: bool, made: nat)
      requires Valid() && file == documents && count <= |available| && Distinct(available)
      requires forall d | d in available :: Available(Find(documents, d))
      requires forall k | k in documents :: !documents[k].phase.Submitting?
      requires |Submissions(documents)| + foreign + count <= MAX_IN_FLIGHT || count == 0
      modifies this`documents, this`file, this`sys, this`peak
      ensures Valid() && file == documents
      ensures made <= count && (!stop ==> made == count)
      ensures forall d | d !in available[..made] :: Find(documents, d) == Find(old(documents), d)
      ensures peak <= if old(peak) <= MAX_IN_FLIGHT then MAX_IN_FLIGHT else old(peak)
      ensures forall d :: Count(sys.retained, d) == Count(old(sys.retained), d) + if d in available[..made] then 1 else 0
    {
      stop, made := false, 0;
      while made < count
        invariant made <= count && Valid() && file == documents
        invariant forall k | k in documents :: !documents[k].phase.Submitting?
        invariant forall d | d !in available[..made] :: Find(documents, d) == Find(old(documents), d)
        invariant peak <= if old(peak) <= MAX_IN_FLIGHT then MAX_IN_FLIGHT else old(peak)
        invariant forall d :: Count(sys.retained, d) == Count(old(sys.retained), d) + if d in available[..made] then 1 else 0
      {
        var d := available[made];
        assert d !in available[..made];
        assert available[..made + 1] == available[..made] + [d];
        SubmissionsGrow(old(documents), documents, available[..made]);
        var accepted := Submit(d, answer(made), foreign);
        made := made + 1;
        if !accepted { stop := true; return; }
      }
    }

    /** Submit while the queue has room. Each retain call goes to a different document, and a submission happens only
        if our submissions and all foreign work stay within the cap after it. */
    method SubmitSome(ids: set<OpId>, byDocument: map<DocId, OpId>, answer: nat -> Option<OpId>)
        returns (stop: bool, made: nat)
      requires Valid() && file == documents
      requires Injective(byDocument) && byDocument.Values <= ids
      modifies this`documents, this`file, this`sys, this`peak
      ensures Valid() && file == documents
      ensures old(peak) <= MAX_IN_FLIGHT ==> peak <= MAX_IN_FLIGHT
      ensures made > 0 ==> |Submissions(documents)| + |ids - byDocument.Values| <= MAX_IN_FLIGHT
      ensures FirstCalled(items, old(documents), old(sys.retained), sys.retained, made)
      ensures made > 0 ==> |Submissions(old(documents))| + |ids - byDocument.Values| + made <= MAX_IN_FLIGHT
      ensures !stop && made < |AvailableItems(items, old(documents))| ==>
                made + |ids| + |Submissions(old(documents)) - byDocument.Keys| >= MAX_IN_FLIGHT
      ensures Unresolved(old(documents)) ==> stop && made == 0
    {
      if Unresolved(documents) { return true, 0; }
      var inFlight := |ids| + |Submissions(documents) - byDocument.Keys|;
      InFlightCovers(Submissions(documents), ids, byDocument);
      var available := AvailableItems(items, documents);
      AvailableItemsFilter(items, documents);
      var capacity := if MAX_IN_FLIGHT >= inFlight then MAX_IN_FLIGHT - inFlight else 0;
      stop, made := SubmitFirst(available, if capacity < |available| then capacity else |available|, answer, |ids - byDocument.Values|);
      SubmissionsGrow(old(documents), documents, available[..made]);
    }

    /** The submissions of a pass. */
    method SubmitAvailable(ids: set<OpId>, byDocument: map<DocId, OpId>, answer: nat -> Option<OpId>)
        returns (stop: bool, made: nat)
      requires Valid() && file == documents
      requires Injective(byDocument) && byDocument.Values <= ids
      modifies this`documents, this`file, this`sys, this`peak
      ensures Valid() && file == documents
      ensures old(peak) <= MAX_IN_FLIGHT ==> peak <= MAX_IN_FLIGHT
      ensures made > 0 ==> |Submissions(documents)| + |ids - byDocument.Values| <= MAX_IN_FLIGHT
      ensures FirstCalled(items, old(documents), old(sys.retained), sys.retained, made)
      ensures made > 0 ==> |Submissions(old(documents))| + |ids - byDocument.Values| + made <= MAX_IN_FLIGHT
      ensures !stop && made < |AvailableItems(items, old(documents))| ==>
                made + |ids| + |Submissions(old(documents)) - byDocument.Keys| >= MAX_IN_FLIGHT
      ensures Unresolved(old(documents)) ==> stop && made == 0
      ensures OnceEach(items, old(documents), old(sys.retained), sys.retained)
      ensures CalledInOrder(items, old(documents), old(sys.retained), sys.retained)
      ensures CountedAtMost(old(sys.retained), sys.retained, if made > 0 then 1 else 0)
      // unless it stops, the pass leaves a document out only when eight are at work
      ensures !stop && LeftOut(items, old(documents), old(sys.retained), sys.retained) ==>
                AtCap(ids, byDocument.Keys, old(documents), made)
    {
      ghost var before, counts := documents, sys.retained;
      stop, made := SubmitSome(ids, byDocument, answer);
      CalledAreAvailable(items, before, counts, sys.retained, made);
      if made + |ids| + |Submissions(before) - byDocument.Keys| >= MAX_IN_FLIGHT { AtCapFrom(ids, byDocument.Keys, before, made); }
    }

    /** The one call for a claimed document, and its outcome on file. */
    method Call(d: DocId, answer: Option<OpId>) returns (accepted: bool)
      requires Reached(sys) && sys.process == Up(documents, retryFailed, Calling(d)) && sys.file == file && d in documents && Distinct(items)
      modifies this`documents, this`file, this`sys
      ensures Valid() && file == documents && (accepted <==> answer.Some?)
      ensures documents == old(documents)[d := Returned(old(documents)[d], answer)]
      ensures sys.retained == old(sys.retained)[d := Count(old(sys.retained), d) + 1]
    {
      ghost var called := CallStep(sys, d, answer);
      accepted := answer.Some?;
      documents := documents[d := Returned(documents[d], answer)];
      sys := called;
      Save();
    }

    /** One submission: claim, save, call, record, save. */
    method Submit(d: DocId, answer: Option<OpId>, ghost foreign: nat) returns (accepted: bool)
      requires Valid() && file == documents && Available(Find(documents, d))
      requires forall k | k in documents :: !documents[k].phase.Submitting?
      modifies this`documents, this`file, this`sys, this`peak
      ensures Valid() && file == documents && (accepted <==> answer.Some?)
      ensures documents == old(documents)[d := Returned(Claimed(Find(old(documents), d)), answer)]
      ensures sys.retained == old(sys.retained)[d := Count(old(sys.retained), d) + 1]
      ensures peak == Larger(old(peak), |Submissions(old(documents))| + 1 + foreign)
      // the answer names the operation; a call that raised leaves the document failed; the retries carry over
      ensures d in documents && documents[d].operation == answer && documents[d].phase == if answer.Some? then Submitted else Failed
      ensures documents[d].retries == if d in old(documents) then old(documents)[d].retries else 0
      ensures documents == old(documents)[d := documents[d]]
    {
      ghost var claimed, saved := ClaimSteps(sys, d);
      peak := Larger(peak, |Submissions(documents)| + 1 + foreign);
      documents := documents[d := Claimed(Find(documents, d))];
      sys := claimed;
      file := documents;
      sys := saved;
      accepted := Call(d, answer);
    }

    /** One pass of the loop: take over, stop on an ambiguous submission, refresh, submit while there is room. */
    method Iterate(r: Round) returns (stop: bool, made: nat)
      requires Valid() && Consistent(r.active) && peak <= MAX_IN_FLIGHT
      modifies this`documents, this`file, this`sys, this`peak
      ensures Valid() && peak <= MAX_IN_FLIGHT && (!stop ==> file == documents)
      ensures made > 0 ==>
                |set d | d in documents && documents[d].phase == Submitted|
                + |set i | 0 <= i < |r.active| && (r.active[i].doc.None? || r.active[i].doc.value !in items) :: r.active[i].id| <= 8
      ensures CountedAtMost(old(sys.retained), sys.retained, if made > 0 then 1 else 0)
    {
      made := 0;
      var ids, byDocument;
      stop, ids, byDocument := AdoptActive(r.active, r.children);
      if stop { return; }
      TheRestIsForeign(items, r.active, byDocument);
      if exists d | d in documents :: documents[d].phase.Submitting? { return true, 0; }
      stop := RefreshSubmitted(r.remote);
      if stop { return; }
      stop, made := SubmitAvailable(ids, byDocument, r.answer);
      SubmittedIs(documents);
      ForeignIs(r.active, items);
    }

    /**
     * The controller's loop over whatever the remote shows it: at no submission do our submitted documents and the foreign
     * operations exceed the cap, and no document is retained more often than its one call and its one retry.
     */
    method Loop(rounds: seq<Round>)
      requires Valid() && peak <= MAX_IN_FLIGHT
      requires forall r | r in rounds :: Consistent(r.active)
      modifies this`documents, this`file, this`sys, this`peak
      ensures Valid() && peak <= 8
      ensures forall d :: Count(sys.retained, d) <= 1 + Retries(Find(file, d)) <= 2
    {
      var i := 0;
      while i < |rounds|
        invariant Valid() && peak <= MAX_IN_FLIGHT
      {
        assert rounds[i] in rounds;
        var stop, made := Iterate(rounds[i]);
        if stop { break; }
        i := i + 1;
      }
      ghost var es :| Run(INITIAL, es, sys);
      forall d ensures Count(sys.retained, d) <= 1 + Retries(Find(file, d)) <= 2 {
        RetainCallsAreBounded(es, sys, d);
      }
    }
  }
}
