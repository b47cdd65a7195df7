/** Journaled replacement of a virtual machine: crashes at any point, any number of retries. */
module VmReplacement {
  import opened Options

  type VmId = nat

  /** The journal file of one old machine; every write replaces the file at once. */
  datatype Journal = Missing | Written(removed: bool, replacement: Option<VmId>)

  /** The last four fields count the run so far: machines created, creations whose journal entry was lost, live journaled
      replacements that vanished, entries of live replacements that were overwritten. */
  datatype State = State(
    live: set<VmId>, used: set<VmId>, journal: Journal,
    created: nat, lost: nat, vanished: nat, overwritten: nat)

  /** Where the process dies or an external call raises, if it does. AfterCreate includes a CreateVm reply without an id. */
  datatype Death = Nowhere | AtOnce | BeforeRemoval | BeforeMark | BeforeCreate | AfterCreate

  datatype Removal = Removed | RaisedGone | RaisedStillThere

  /** How one attempt goes. An existing journal that cannot be read is taken for a missing one. */
  datatype Fate = Fate(readable: bool, removal: Removal, death: Death)

  function ReplacementOf(j: Journal): Option<VmId> {
    if j.Written? then j.replacement else None
  }

  predicate MarkedRemoved(j: Journal) {
    j.Written? && j.removed
  }

  predicate Found(s: State, r: Option<VmId>) {
    r.Some? && r.value in s.live
  }

  function OneIf(b: bool): nat {
    if b then 1 else 0
  }

  /** The journal entry that follows the removal. */
  function Marked(s: State): State {
    s.(journal := Written(true, None), overwritten := s.overwritten + OneIf(Found(s, ReplacementOf(s.journal))))
  }

  /** The creation step and the journal entry that follows it. */
  function Created(s: State, fate: Fate, id: VmId): State {
    var c := s.(live := s.live + {id}, used := s.used + {id}, created := s.created + 1);
    if fate.death == AfterCreate then c.(lost := c.lost + 1) else c.(journal := Written(true, Some(id)))
  }

  /** One attempt to replace `target`; CreateVm, if it runs, returns id. */
  function After(s: State, target: VmId, fate: Fate, id: VmId): State {
    var seen := if fate.readable then s.journal else Missing;
    if Found(s, ReplacementOf(seen)) || fate.death == AtOnce then s
    else if MarkedRemoved(seen) then
      if fate.death == BeforeCreate then s else Created(s, fate, id)
    else if target in s.live && (fate.death == BeforeRemoval || fate.removal == RaisedStillThere) then s
    else
      var gone := s.(live := s.live - {target});
      if fate.death == BeforeMark then gone
      else
        var marked := Marked(gone);
        if fate.death == BeforeCreate then marked else Created(marked, fate, id)
  }

  /**
   * The attempt case by case. It stops at a live replacement it can read of; it goes on from a mark it can read of without
   * touching the old machine or the journal; otherwise the old machine goes first, then the mark, then the creation, then
   * the entry.
   */
  ghost predicate AttemptWent(s: State, t: State, target: VmId, fate: Fate, id: VmId) {
    var j := s.journal;
    if fate.readable && j.Written? && j.replacement.Some? && j.replacement.value in s.live then t == s
    else if fate.death == AtOnce then t == s
    else if fate.readable && j.Written? && j.removed then
      match fate.death
      case BeforeCreate => t == s
      case AfterCreate => t.live == s.live + {id} && t.journal == j && t.lost == s.lost + 1
      case _ => t.live == s.live + {id} && t.journal == Written(true, Some(id)) && t.lost == s.lost
    else if target in s.live && (fate.death == BeforeRemoval || fate.removal == RaisedStillThere) then t == s
    else
      match fate.death
      case BeforeMark => t.live == s.live - {target} && t.journal == j && t.created == s.created
      case BeforeCreate => t.live == s.live - {target} && t.journal == Written(true, None) && t.created == s.created
      case AfterCreate => t.live == s.live - {target} + {id} && t.journal == Written(true, None) && t.lost == s.lost + 1
      case _ => t.live == s.live - {target} + {id} && t.journal == Written(true, Some(id)) && t.lost == s.lost
  }

  lemma AttemptGoes(s: State, target: VmId, fate: Fate, id: VmId)
    ensures AttemptWent(s, After(s, target, fate, id), target, fate, id)
  {
  }

  // ---------------------------------------------------------------- the host

  class Host {
    const target: VmId
    var live: set<VmId>
    var used: set<VmId>
    var journal: Journal
    ghost var created: nat
    ghost var lost: nat
    ghost var vanished: nat
    ghost var overwritten: nat

    ghost function View(): State
      reads this
    {
      State(live, used, journal, created, lost, vanished, overwritten)
    }

    constructor (target: VmId)
      ensures this.target == target && View() == Start(target)
    {
      this.target, live, used, journal := target, {target}, {target}, Missing;
      created, lost, vanished, overwritten := 0, 0, 0, 0;
    }

    method RemoveVm(removal: Removal) returns (ok: bool)
      modifies `live
      ensures ok <==> removal != RaisedStillThere
      ensures live == if ok then old(live) - {target} else old(live)
    {
      ok := removal != RaisedStillThere;
      if ok { live := live - {target}; }
    }

    /** The old machine is removed, and the journal marked; then the replacement is made. */
    method RecreateVm(fate: Fate, id: VmId) returns (replacement: Option<VmId>)
      modifies this
      ensures View() == After(old(View()), target, fate, id)
      ensures AttemptWent(old(View()), View(), target, fate, id)
      ensures replacement.Some? ==> ReplacementOf(journal) == replacement && replacement.value in live
      ensures fate.death == Nowhere && (fate.removal != RaisedStillThere || target !in old(live)) ==> replacement.Some?
    {
      ghost var before := View();
      replacement := Recreate(fate, id);
      AttemptGoes(before, target, fate, id);
    }

    method Recreate(fate: Fate, id: VmId) returns (replacement: Option<VmId>)
      modifies this
      ensures View() == After(old(View()), target, fate, id)
      ensures replacement.Some? ==> ReplacementOf(journal) == replacement && replacement.value in live
      ensures fate.death == Nowhere && (fate.removal != RaisedStillThere || target !in old(live)) ==> replacement.Some?
    {
      var seen := if fate.readable then journal else Missing;
      var known := ReplacementOf(seen);
      if known.Some? && known.value in live { return known; }
      if fate.death == AtOnce { return None; }
      if !MarkedRemoved(seen) {
        if target in live {
          if fate.death == BeforeRemoval { return None; }
          var removed := RemoveVm(fate.removal);
          if !removed { return None; }
        }
        assert live == old(live) - {target};
        if fate.death == BeforeMark { return None; }
        overwritten := overwritten + OneIf(Found(View(), ReplacementOf(journal)));
        journal := Written(true, None);
      }
      if fate.death == BeforeCreate { return None; }
      replacement := Create(fate, id);
    }

    /** CreateVm and the entry that follows it. */
    method Create(fate: Fate, id: VmId) returns (replacement: Option<VmId>)
      modifies this
      ensures View() == Created(old(View()), fate, id)
      ensures replacement == if fate.death == AfterCreate then None else Some(id)
    {
      live, used, created := live + {id}, used + {id}, created + 1;
      if fate.death == AfterCreate {
        lost := lost + 1;
        return None;
      }
      journal := Written(true, Some(id));
      replacement := Some(id);
    }
  }

  // ---------------------------------------------------------------- runs

  datatype Event = Attempt(fate: Fate, id: VmId) | Vanish(vm: VmId)

  function Start(target: VmId): State {
    State({target}, {target}, Missing, 0, 0, 0, 0)
  }

  /** A machine may disappear at any time; losing the journaled replacement is counted. */
  function Vanished(s: State, vm: VmId): State {
    var counted := vm in s.live && ReplacementOf(s.journal) == Some(vm);
    s.(live := s.live - {vm}, vanished := if counted then s.vanished + 1 else s.vanished)
  }

  function Step(s: State, target: VmId, e: Event): State {
    match e
    case Attempt(fate, id) => After(s, target, fate, id)
    case Vanish(vm) => Vanished(s, vm)
  }

  /** Identifiers of machines are never given out twice. */
  predicate Fresh(s: State, e: Event) {
    e.Attempt? ==> e.id !in s.used
  }

  function Run(target: VmId, events: seq<Event>): State {
    if events == [] then Start(target) else Step(Run(target, events[..|events| - 1]), target, events[|events| - 1])
  }

  predicate AllFresh(target: VmId, events: seq<Event>) {
    events == [] || (AllFresh(target, events[..|events| - 1]) && Fresh(Run(target, events[..|events| - 1]), events[|events| - 1]))
  }

  predicate Consistent(s: State, target: VmId) {
    && target in s.used && s.live <= s.used
    && (s.journal.Written? ==> s.journal.removed && target !in s.live)
    && (ReplacementOf(s.journal).Some? ==> s.journal.replacement.value in s.used && s.journal.replacement.value != target)
    && s.created == s.lost + s.vanished + s.overwritten + OneIf(Found(s, ReplacementOf(s.journal)))
    && s.lost <= s.created
  }

  lemma StepConsistent(s: State, target: VmId, e: Event)
    requires Consistent(s, target) && Fresh(s, e)
    ensures Consistent(Step(s, target, e), target)
  {
  }

  lemma {:induction false} RunConsistent(target: VmId, events: seq<Event>)
    requires AllFresh(target, events)
    ensures Consistent(Run(target, events), target)
  {
    if events != [] {
      var front := events[..|events| - 1];
      RunConsistent(target, front);
      StepConsistent(Run(target, front), target, events[|events| - 1]);
    }
  }

  /**
   * Over any run the creations are accounted for exactly: one for a live journaled replacement, and one for each creation
   * whose journal entry was lost, each live journaled replacement that vanished and each whose entry was overwritten.
   */
  lemma CreationsAreAccounted(target: VmId, events: seq<Event>)
    requires AllFresh(target, events)
    ensures var s := Run(target, events);
            s.created == s.lost + s.vanished + s.overwritten + OneIf(Found(s, ReplacementOf(s.journal)))
  {
    RunConsistent(target, events);
  }

  /** CreateVm never runs beside the old machine. */
  lemma TargetGoneBeforeCreate(target: VmId, events: seq<Event>, fate: Fate, id: VmId)
    requires AllFresh(target, events) && id !in Run(target, events).used
    ensures var s := Run(target, events);
            After(s, target, fate, id).created > s.created ==> target !in After(s, target, fate, id).live
  {
    RunConsistent(target, events);
  }

  // ---------------------------------------------------------------- one replacement, over any number of crashes and retries

  predicate Journaled(s: State, r: VmId) {
    r in s.live && ReplacementOf(s.journal) == Some(r)
  }

  /** An attempt that reads the journal, or dies before it would write it. */
  predicate Keeps(fate: Fate) {
    fate.readable || fate.death in {AtOnce, BeforeMark}
  }

  predicate AllKeep(events: seq<Event>) {
    forall i | 0 <= i < |events| && events[i].Attempt? :: Keeps(events[i].fate)
  }

  /** The entry of a live replacement survives an attempt exactly if the attempt reads it or dies before writing. */
  lemma EntryKeptIff(target: VmId, events: seq<Event>, fate: Fate, id: VmId, r: VmId)
    requires AllFresh(target, events) && id !in Run(target, events).used && Journaled(Run(target, events), r)
    ensures Journaled(After(Run(target, events), target, fate, id), r) <==> Keeps(fate)
  {
    RunConsistent(target, events);
  }

  /** Such an attempt creates one at once if it gets as far as CreateVm. */
  lemma AttemptDuplicatesIff(target: VmId, events: seq<Event>, fate: Fate, id: VmId, r: VmId)
    requires AllFresh(target, events) && id !in Run(target, events).used && Journaled(Run(target, events), r)
    ensures After(Run(target, events), target, fate, id).created > Run(target, events).created
            <==> !Keeps(fate) && fate.death != BeforeCreate
  {
    RunConsistent(target, events);
  }

  lemma RunThen(target: VmId, events: seq<Event>, e: Event)
    ensures Run(target, events + [e]) == Step(Run(target, events), target, e)
    ensures AllFresh(target, events + [e]) <==> AllFresh(target, events) && Fresh(Run(target, events), e)
  {
    assert (events + [e])[..|events|] == events;
  }

  /** The entry of r was overwritten: a second machine exists, or the journal has no replacement and the next attempt makes one. */
  predicate Overwritten(s: State, created: nat) {
    s.created > created || (s.created == created && ReplacementOf(s.journal) == None)
  }

  /** One more event, on an entry that stands and on one that was overwritten. */
  lemma KeptStep(s: State, target: VmId, e: Event, r: VmId)
    requires Consistent(s, target) && Fresh(s, e) && Journaled(s, r) && e != Vanish(r)
    ensures var t := Step(s, target, e);
            if e.Attempt? ==> Keeps(e.fate) then Journaled(t, r) && t.created == s.created else r in t.live && Overwritten(t, s.created)
  {
  }

  lemma OverwrittenStep(s: State, target: VmId, e: Event, r: VmId, created: nat)
    requires r in s.live && r != target && Overwritten(s, created) && e != Vanish(r)
    ensures r in Step(s, target, e).live && Overwritten(Step(s, target, e), created)
  {
  }

  /** What any continuation in which r does not vanish comes to: its entry stands and nothing was created, or it was overwritten. */
  predicate KeptOr(s: State, more: seq<Event>, t: State, r: VmId) {
    r in t.live && if AllKeep(more) then Journaled(t, r) && t.created == s.created else Overwritten(t, s.created)
  }

  lemma AllKeepThen(events: seq<Event>, e: Event)
    ensures AllKeep(events + [e]) <==> AllKeep(events) && (e.Attempt? ==> Keeps(e.fate))
  {
    assert (events + [e])[|events|] == e;
    assert forall i | 0 <= i < |events| :: (events + [e])[i] == events[i];
  }

  lemma {:induction false} KeptOrOverwritten(target: VmId, events: seq<Event>, more: seq<Event>, r: VmId)
    requires AllFresh(target, events + more) && r != target
    requires Journaled(Run(target, events), r) && Vanish(r) !in more
    ensures KeptOr(Run(target, events), more, Run(target, events + more), r)
    decreases |more|
  {
    if more == [] {
      assert events + more == events;
    } else {
      var front, e := more[..|more| - 1], more[|more| - 1];
      assert more == front + [e] && events + more == (events + front) + [e];
      RunThen(target, events + front, e);
      KeptOrOverwritten(target, events, front, r);
      RunConsistent(target, events + front);
      AllKeepThen(front, e);
      assert e in more;
      var s, t := Run(target, events), Run(target, events + front);
      if AllKeep(front) { KeptStep(t, target, e, r); } else { OverwrittenStep(t, target, e, r, s.created); }
    }
  }

  /**
   * A live journaled replacement that does not vanish, over any later crashes and retries: the next undisturbed attempt
   * finds that a second machine was created, or creates one, if and only if some attempt did not read the journal and
   * lived to write it.
   */
  lemma LiveReplacementDuplicatedIff(target: VmId, events: seq<Event>, more: seq<Event>, removal: Removal, id: VmId, r: VmId)
    requires AllFresh(target, events) && AllFresh(target, events + more) && id !in Run(target, events + more).used
    requires Journaled(Run(target, events), r) && Vanish(r) !in more && removal != RaisedStillThere
    ensures var s, t := Run(target, events), Run(target, events + more + [Attempt(Fate(true, removal, Nowhere), id)]);
            r in t.live && t.created >= s.created && (t.created > s.created <==> !AllKeep(more))
  {
    RunConsistent(target, events);
    KeptOrOverwritten(target, events, more, r);
    RunConsistent(target, events + more);
    RunThen(target, events + more, Attempt(Fate(true, removal, Nowhere), id));
  }

  /** Such a run: the second attempt overwrites the entry it could not read and dies, and the third creates beside the live one. */
  lemma TwoLiveReplacements() returns (events: seq<Event>)
    ensures AllFresh(0, events) && forall i | 0 <= i < |events| :: events[i].Attempt?
    ensures var s := Run(0, events); s.live == {1, 3} && s.lost == 0 && s.vanished == 0 && s.overwritten == 1 && s.created == 2
    ensures forall i | 0 <= i < |events| :: !events[i].fate.readable ==> events[i].fate.death == BeforeCreate
  {
    var good, bad := Fate(true, Removed, Nowhere), Fate(false, Removed, BeforeCreate);
    var first, second, third := Attempt(good, 1), Attempt(bad, 2), Attempt(good, 3);
    RunThen(0, [], first);
    RunThen(0, [first], second);
    RunThen(0, [first, second], third);
    assert [first] + [second] == [first, second] && [first, second] + [third] == [first, second, third] && [] + [first] == [first];
    events := [first, second, third];
  }

  /** Wherever earlier attempts stopped, an undisturbed one ends with the old machine gone and a live journaled replacement. */
  lemma UndisturbedAttemptFinishes(target: VmId, events: seq<Event>, removal: Removal, id: VmId)
    requires AllFresh(target, events) && id !in Run(target, events).used && removal != RaisedStillThere
    ensures var s := After(Run(target, events), target, Fate(true, removal, Nowhere), id);
            target !in s.live && Found(s, ReplacementOf(s.journal)) && s.lost == Run(target, events).lost
  {
    RunConsistent(target, events);
  }
}
