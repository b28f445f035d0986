/// Who owns a registered listener: the handles that `Bus::listen` returns and
/// the listener list they point into, over any run of any number of threads.
///
/// A handle lives in a slot (a variable of the program). `listen` is three
/// steps, because it draws the id, inserts the entry under the lock and raises
/// the gauge one after the other with other threads in between; the rest holds
/// the lock or touches only a handle that one thread owns, and is one step.

module Subscriptions {
  import opened Listeners
  import Prioritized

  // ----- the bus's side ------------------------------------------------------------------------

  /// The listener list and the `conduit_listeners` gauge.
  datatype Book = Book(entries: seq<Entry>, gauge: int)

  function Ids(es: seq<Entry>): set<nat> {
    set e | e in es :: e.id
  }

  /// Without the first entry of that id.
  function Erase(es: seq<Entry>, id: nat): seq<Entry> {
    if es == [] then []
    else if es[0].id == id then es[1..]
    else [es[0]] + Erase(es[1..], id)
  }

  /// Bus::release().
  function Released(b: Book, id: nat): Book {
    if id in Ids(b.entries) then Book(Erase(b.entries, id), b.gauge - 1) else b
  }

  // ----- the handle's side ---------------------------------------------------------------------

  /// Whether it still points to the bus, whose listener it is, and its flag.
  datatype Handle = Handle(bus: bool, id: nat, active: bool) {
    /// Whether release() reaches the bus.
    predicate Live() {
      active && bus
    }
  }

  const EMPTY := Handle(false, 0, false)

  /// What release(), detach() or a move leaves of a handle: the id stays.
  function Spent(h: Handle): Handle {
    Handle(false, h.id, false)
  }

  datatype State = State(
    nextId: nat,
    begun: set<Entry>,           // drawn an id, not yet inserted
    book: Book,
    uncounted: set<nat>,         // inserted, gauge not yet raised, no handle yet
    handles: map<nat, Handle>,
    // what has happened so far
    detached: set<nat>,
    removed: seq<nat>)

  datatype Step =
    | Begin(nameOrPattern: string, isPattern: bool, priority: int)
    | Insert(e: Entry)
    | Return(id: nat, slot: nat)
    | Default(slot: nat)
    | MoveConstruct(from: nat, slot: nat)
    | MoveAssign(from: nat, slot: nat)
    | Release(slot: nat)
    | Detach(slot: nat)
    | Destroy(slot: nat)

  predicate Enabled(s: State, step: Step) {
    match step
    case Begin(_, _, _) => true
    case Insert(e) => e in s.begun
    case Return(id, slot) => id in s.uncounted && slot !in s.handles
    case Default(slot) => slot !in s.handles
    case MoveConstruct(from, slot) => from in s.handles && slot !in s.handles
    case MoveAssign(from, slot) => from in s.handles && slot in s.handles
    case Release(slot) => slot in s.handles
    case Detach(slot) => slot in s.handles
    case Destroy(slot) => slot in s.handles
  }

  /// Subscription::release().
  function ReleaseAt(s: State, slot: nat): State
    requires slot in s.handles
  {
    var h := s.handles[slot];
    var s1 := s.(handles := s.handles[slot := Spent(h)]);
    if h.Live() && h.id in Ids(s.book.entries)
    then s1.(book := Released(s.book, h.id), removed := s.removed + [h.id])
    else s1
  }

  function DetachAt(s: State, slot: nat): State
    requires slot in s.handles
  {
    var h := s.handles[slot];
    s.(handles := s.handles[slot := Spent(h)], detached := if h.Live() then s.detached + {h.id} else s.detached)
  }

  function MoveTo(s: State, from: nat, slot: nat): State
    requires from in s.handles && from != slot
  {
    s.(handles := s.handles[slot := s.handles[from]][from := Spent(s.handles[from])])
  }

  function Apply(s: State, step: Step): State
    requires Enabled(s, step)
  {
    match step
    case Begin(n, isPattern, priority) =>
      s.(nextId := s.nextId + 1, begun := s.begun + {Entry(s.nextId + 1, n, isPattern, priority)})
    case Insert(e) =>
      s.(begun := s.begun - {e}, uncounted := s.uncounted + {e.id},
         book := s.book.(entries := Prioritized.Insert(s.book.entries, e, Rank)))
    case Return(id, slot) =>
      s.(uncounted := s.uncounted - {id}, book := s.book.(gauge := s.book.gauge + 1),
         handles := s.handles[slot := Handle(true, id, true)])
    case Default(slot) => s.(handles := s.handles[slot := EMPTY])
    case MoveConstruct(from, slot) => MoveTo(s, from, slot)
    case MoveAssign(from, slot) => if from == slot then s else MoveTo(ReleaseAt(s, slot), from, slot)
    case Release(slot) => ReleaseAt(s, slot)
    case Detach(slot) => DetachAt(s, slot)
    case Destroy(slot) => var s1 := ReleaseAt(s, slot); s1.(handles := s1.handles - {slot})
  }

  function Init(): State {
    State(0, {}, Book([], 0), {}, map[], {}, [])
  }

  predicate Leads(s: State, steps: seq<Step>, s': State)
    decreases |steps|
  {
    if steps == [] then s == s' else Enabled(s, steps[0]) && Leads(Apply(s, steps[0]), steps[1..], s')
  }

  predicate Reaches(steps: seq<Step>, s: State) {
    Leads(Init(), steps, s)
  }

  // ----- the invariant ----------------------------------------------------------------------------

  ghost predicate NoRepeats(ids: seq<nat>) {
    forall i, j :: 0 <= i < j < |ids| ==> ids[i] != ids[j]
  }

  function BegunIds(begun: set<Entry>): set<nat> {
    set e | e in begun :: e.id
  }

  /// Every id drawn so far is in exactly one place: on its way in, in the
  /// list, or removed; and it is there once.
  ghost predicate IdInv(nextId: nat, begun: set<Entry>, ids: set<nat>, removed: seq<nat>) {
    (forall e, f :: e in begun && f in begun && e.id == f.id ==> e == f) &&
    NoRepeats(removed) &&
    (forall i :: 1 <= i <= nextId <==> i in BegunIds(begun) || i in ids || i in removed) &&
    (forall i :: i in ids ==> i !in BegunIds(begun) && i !in removed) &&
    (forall i :: i in removed ==> i !in BegunIds(begun))
  }

  predicate Owns(handles: map<nat, Handle>, slot: nat, id: nat) {
    slot in handles && handles[slot].active && handles[slot].id == id
  }

  /// An active handle points to the bus, its id is registered and it is the
  /// only one; a registered id is on its way to a handle, has one, or was
  /// detached, and only one of these.
  ghost predicate OwnInv(handles: map<nat, Handle>, ids: set<nat>, uncounted: set<nat>, detached: set<nat>) {
    (forall k :: k in handles ==> handles[k].bus == handles[k].active) &&
    (forall k, id :: Owns(handles, k, id) ==> id in ids && id !in uncounted && id !in detached) &&
    (forall k, l, id :: Owns(handles, k, id) && Owns(handles, l, id) ==> k == l) &&
    (forall id :: id in ids ==> id in uncounted || id in detached || exists k :: Owns(handles, k, id)) &&
    uncounted <= ids && detached <= ids && uncounted !! detached
  }

  ghost predicate BookInv(b: Book, uncounted: nat) {
    Distinct(b.entries) && Prioritized.Sorted(b.entries, Rank) && b.gauge + uncounted == |b.entries|
  }

  ghost predicate Inv(s: State) {
    var ids := Ids(s.book.entries);
    IdInv(s.nextId, s.begun, ids, s.removed) &&
    OwnInv(s.handles, ids, s.uncounted, s.detached) &&
    BookInv(s.book, |s.uncounted|)
  }

  // ----- the list -----------------------------------------------------------------------------------

  /// Erasing takes out the entry of that id and keeps the rest in order.
  lemma {:induction false} EraseSplits(es: seq<Entry>, id: nat) returns (k: nat)
    requires id in Ids(es)
    ensures k < |es| && es[k].id == id && Erase(es, id) == es[..k] + es[k + 1..]
    ensures forall i :: 0 <= i < k ==> es[i].id != id
  {
    if es[0].id == id {
      k := 0;
    } else {
      assert es == [es[0]] + es[1..];
      var j := EraseSplits(es[1..], id);
      k := j + 1;
      assert [es[0]] + (es[1..][..j] + es[1..][j + 1..]) == es[..k] + es[k + 1..];
    }
  }

  lemma EraseIds(es: seq<Entry>, id: nat, k: nat)
    requires Distinct(es) && k < |es| && es[k].id == id
    ensures Ids(es[..k] + es[k + 1..]) == Ids(es) - {id}
  {
    var rest := es[..k] + es[k + 1..];
    forall i | i in Ids(es) && i != id ensures i in Ids(rest) {
      var e :| e in es && e.id == i;
      var j :| 0 <= j < |es| && es[j] == e;
      assert rest[if j < k then j else j - 1] == e;
    }
    forall i | i in Ids(rest) ensures i in Ids(es) && i != id {
      var e :| e in rest && e.id == i;
      var j :| 0 <= j < |rest| && rest[j] == e;
      assert es[if j < k then j else j + 1] == e;
    }
  }

  lemma ReleasedKeeps(b: Book, id: nat, uncounted: nat)
    requires BookInv(b, uncounted) && id in Ids(b.entries)
    ensures var b' := Released(b, id);
            BookInv(b', uncounted) && Ids(b'.entries) == Ids(b.entries) - {id}
  {
    var es := b.entries;
    var k := EraseSplits(es, id);
    EraseIds(es, id, k);
    var rest := es[..k] + es[k + 1..];
    assert forall i :: 0 <= i < |rest| ==> rest[i] == es[if i < k then i else i + 1];
  }

  lemma InsertedKeeps(b: Book, e: Entry, uncounted: nat)
    requires BookInv(b, uncounted) && e.id !in Ids(b.entries)
    ensures var es' := Prioritized.Insert(b.entries, e, Rank);
            BookInv(b.(entries := es'), uncounted + 1) && Ids(es') == Ids(b.entries) + {e.id}
  {
    var es := b.entries;
    assert e !in es;
    var k := Prioritized.PlaceSplits(es, e, Rank);
    Prioritized.SplitSorted(es, e, Rank, k);
    PlacedDistinct(es, e, k);
    hide Distinct, Prioritized.Sorted, Prioritized.Place, Ids;
  }

  lemma PlacedDistinct(es: seq<Entry>, e: Entry, k: nat)
    requires Distinct(es) && e.id !in Ids(es) && k <= |es|
    ensures var es' := es[..k] + [e] + es[k..]; Distinct(es') && Ids(es') == Ids(es) + {e.id}
  {
    var es' := es[..k] + [e] + es[k..];
    assert forall i :: 0 <= i < |es| ==> es[i] in es;
    assert forall i :: 0 <= i < |es'| ==> es'[i] == if i < k then es[i] else if i == k then e else es[i - 1];
    InsertedIds(es, e, es', k);
  }

  lemma InsertedIds(es: seq<Entry>, e: Entry, es': seq<Entry>, k: nat)
    requires k <= |es| && es' == es[..k] + [e] + es[k..]
    ensures Ids(es') == Ids(es) + {e.id}
  {
    assert es == es[..k] + es[k..];
    assert forall f :: f in es' <==> f in es || f == e;
  }

  // ----- ids ------------------------------------------------------------------------------------------

  lemma IdBegin(nextId: nat, begun: set<Entry>, ids: set<nat>, removed: seq<nat>, e: Entry)
    requires IdInv(nextId, begun, ids, removed) && e.id == nextId + 1
    ensures IdInv(nextId + 1, begun + {e}, ids, removed)
  {
    assert BegunIds(begun + {e}) == BegunIds(begun) + {e.id};
    assert e.id !in BegunIds(begun) && e.id !in ids && e.id !in removed;
    forall f | f in begun ensures f.id != e.id {
      assert f.id in BegunIds(begun);
    }
  }

  lemma IdInsert(nextId: nat, begun: set<Entry>, ids: set<nat>, removed: seq<nat>, e: Entry)
    requires IdInv(nextId, begun, ids, removed) && e in begun
    ensures IdInv(nextId, begun - {e}, ids + {e.id}, removed) && e.id !in ids
  {
    assert e.id in BegunIds(begun);
    forall i ensures i in BegunIds(begun - {e}) <==> i in BegunIds(begun) && i != e.id {
      if i in BegunIds(begun) && i != e.id {
        var f :| f in begun && f.id == i;
        assert f in begun - {e};
      }
    }
  }

  lemma IdRemove(nextId: nat, begun: set<Entry>, ids: set<nat>, removed: seq<nat>, id: nat)
    requires IdInv(nextId, begun, ids, removed) && id in ids
    ensures IdInv(nextId, begun, ids - {id}, removed + [id])
  {
    var removed' := removed + [id];
    assert forall i :: i in removed' <==> i in removed || i == id;
    hide BegunIds;
  }

  // ----- ownership ----------------------------------------------------------------------------------------

  lemma OwnInsert(hs: map<nat, Handle>, ids: set<nat>, uncounted: set<nat>, detached: set<nat>, id: nat)
    requires OwnInv(hs, ids, uncounted, detached) && id !in ids
    ensures OwnInv(hs, ids + {id}, uncounted + {id}, detached)
  {
  }

  lemma OwnReturn(hs: map<nat, Handle>, ids: set<nat>, uncounted: set<nat>, detached: set<nat>, id: nat, slot: nat)
    requires OwnInv(hs, ids, uncounted, detached) && id in uncounted && slot !in hs
    ensures OwnInv(hs[slot := Handle(true, id, true)], ids, uncounted - {id}, detached)
  {
    var hs' := hs[slot := Handle(true, id, true)];
    assert Owns(hs', slot, id);
    assert forall k, i :: k != slot ==> (Owns(hs', k, i) <==> Owns(hs, k, i));
    assert forall i :: Owns(hs', slot, i) <==> i == id;
  }

  /// A slot that owns nothing may be overwritten with a handle that owns nothing.
  lemma OwnBlank(hs: map<nat, Handle>, ids: set<nat>, uncounted: set<nat>, detached: set<nat>, slot: nat, h: Handle)
    requires OwnInv(hs, ids, uncounted, detached) && (slot in hs ==> !hs[slot].active) && !h.active && !h.bus
    ensures OwnInv(hs[slot := h], ids, uncounted, detached) && OwnInv(hs - {slot}, ids, uncounted, detached)
  {
    OwnSame(hs, hs[slot := h], ids, uncounted, detached);
    OwnSame(hs, hs - {slot}, ids, uncounted, detached);
  }

  lemma OwnSame(hs: map<nat, Handle>, hs': map<nat, Handle>, ids: set<nat>, uncounted: set<nat>, detached: set<nat>)
    requires OwnInv(hs, ids, uncounted, detached)
    requires forall k, i :: Owns(hs', k, i) <==> Owns(hs, k, i)
    requires forall k :: k in hs' ==> hs'[k].bus == hs'[k].active
    ensures OwnInv(hs', ids, uncounted, detached)
  {
    forall id | id in ids && id !in uncounted && id !in detached ensures exists k :: Owns(hs', k, id) {
      var k :| Owns(hs, k, id);
      assert Owns(hs', k, id);
    }
  }

  lemma OwnRelease(hs: map<nat, Handle>, ids: set<nat>, uncounted: set<nat>, detached: set<nat>, slot: nat)
    requires OwnInv(hs, ids, uncounted, detached) && slot in hs && hs[slot].active
    ensures OwnInv(hs[slot := Spent(hs[slot])], ids - {hs[slot].id}, uncounted, detached) && hs[slot].id in ids
  {
    var hs' := hs[slot := Spent(hs[slot])];
    assert Owns(hs, slot, hs[slot].id);
    assert forall k, i :: k != slot ==> (Owns(hs', k, i) <==> Owns(hs, k, i));
    assert forall i :: !Owns(hs', slot, i);
  }

  lemma OwnDetach(hs: map<nat, Handle>, ids: set<nat>, uncounted: set<nat>, detached: set<nat>, slot: nat)
    requires OwnInv(hs, ids, uncounted, detached) && slot in hs && hs[slot].active
    ensures OwnInv(hs[slot := Spent(hs[slot])], ids, uncounted, detached + {hs[slot].id})
  {
    var hs' := hs[slot := Spent(hs[slot])];
    assert Owns(hs, slot, hs[slot].id);
    assert forall k, i :: k != slot ==> (Owns(hs', k, i) <==> Owns(hs, k, i));
    assert forall i :: !Owns(hs', slot, i);
  }

  lemma OwnMove(hs: map<nat, Handle>, ids: set<nat>, uncounted: set<nat>, detached: set<nat>, from: nat, slot: nat)
    requires OwnInv(hs, ids, uncounted, detached) && from in hs && from != slot && (slot in hs ==> !hs[slot].active)
    ensures OwnInv(hs[slot := hs[from]][from := Spent(hs[from])], ids, uncounted, detached)
  {
    var hs' := hs[slot := hs[from]][from := Spent(hs[from])];
    assert forall k, i :: k != slot && k != from ==> (Owns(hs', k, i) <==> Owns(hs, k, i));
    assert forall i :: !Owns(hs', from, i) && !Owns(hs, slot, i);
    assert forall i :: Owns(hs', slot, i) <==> Owns(hs, from, i);
    forall id | id in ids && id !in uncounted && id !in detached ensures exists k :: Owns(hs', k, id) {
      var k :| Owns(hs, k, id);
      assert Owns(hs', if k == from then slot else k, id);
    }
  }

  // ----- every step keeps the invariant --------------------------------------------------------------------

  lemma InsertKeeps(s: State, e: Entry)
    requires e in s.begun && Inv(s)
    ensures Inv(Apply(s, Insert(e)))
  {
    var ids := Ids(s.book.entries);
    IdInsert(s.nextId, s.begun, ids, s.removed, e);
    OwnInsert(s.handles, ids, s.uncounted, s.detached, e.id);
    InsertedKeeps(s.book, e, |s.uncounted|);
    hide IdInv, OwnInv, BookInv, Prioritized.Insert, Ids;
  }

  lemma ReleaseKeeps(s: State, slot: nat)
    requires slot in s.handles && Inv(s)
    ensures Inv(ReleaseAt(s, slot)) && !ReleaseAt(s, slot).handles[slot].active
    ensures ReleaseAt(s, slot).handles.Keys == s.handles.Keys
  {
    var h := s.handles[slot];
    var ids := Ids(s.book.entries);
    assert h.bus == h.active;
    if h.active {
      OwnRelease(s.handles, ids, s.uncounted, s.detached, slot);
      IdRemove(s.nextId, s.begun, ids, s.removed, h.id);
      ReleasedKeeps(s.book, h.id, |s.uncounted|);
    } else {
      OwnBlank(s.handles, ids, s.uncounted, s.detached, slot, Spent(h));
    }
    hide IdInv, OwnInv, BookInv, Released, Ids;
  }

  lemma DetachKeeps(s: State, slot: nat)
    requires slot in s.handles && Inv(s)
    ensures Inv(DetachAt(s, slot))
  {
    var h := s.handles[slot];
    var ids := Ids(s.book.entries);
    assert h.bus == h.active;
    if h.active {
      OwnDetach(s.handles, ids, s.uncounted, s.detached, slot);
    } else {
      OwnBlank(s.handles, ids, s.uncounted, s.detached, slot, Spent(h));
    }
    hide IdInv, OwnInv, BookInv, Ids;
  }

  lemma MoveKeeps(s: State, from: nat, slot: nat)
    requires from in s.handles && from != slot && (slot in s.handles ==> !s.handles[slot].active) && Inv(s)
    ensures Inv(MoveTo(s, from, slot))
  {
    OwnMove(s.handles, Ids(s.book.entries), s.uncounted, s.detached, from, slot);
    hide IdInv, OwnInv, BookInv, Ids;
  }

  lemma StepKeepsInv(s: State, step: Step)
    requires Enabled(s, step) && Inv(s)
    ensures Inv(Apply(s, step))
  {
    var ids := Ids(s.book.entries);
    hide IdInv, OwnInv, BookInv, Ids;
    match step
    case Begin(n, isPattern, priority) =>
      IdBegin(s.nextId, s.begun, ids, s.removed, Entry(s.nextId + 1, n, isPattern, priority));
    case Insert(e) => InsertKeeps(s, e);
    case Return(id, slot) =>
      OwnReturn(s.handles, ids, s.uncounted, s.detached, id, slot);
      Counted(s.book, s.uncounted, id);
    case Default(slot) => OwnBlank(s.handles, ids, s.uncounted, s.detached, slot, EMPTY);
    case MoveConstruct(from, slot) => MoveKeeps(s, from, slot);
    case MoveAssign(from, slot) =>
      if from != slot {
        ReleaseKeeps(s, slot);
        MoveKeeps(ReleaseAt(s, slot), from, slot);
      }
    case Release(slot) => ReleaseKeeps(s, slot);
    case Detach(slot) => DetachKeeps(s, slot);
    case Destroy(slot) =>
      ReleaseKeeps(s, slot);
      var s1 := ReleaseAt(s, slot);
      OwnBlank(s1.handles, Ids(s1.book.entries), s1.uncounted, s1.detached, slot, EMPTY);
  }

  lemma Counted(b: Book, uncounted: set<nat>, id: nat)
    requires BookInv(b, |uncounted|) && id in uncounted
    ensures BookInv(b.(gauge := b.gauge + 1), |uncounted - {id}|)
  {
  }

  lemma {:induction false} LeadsKeepsInv(s: State, steps: seq<Step>, s': State)
    requires Inv(s) && Leads(s, steps, s')
    ensures Inv(s')
    decreases |steps|
  {
    hide Inv, Apply;
    if steps != [] {
      StepKeepsInv(s, steps[0]);
      LeadsKeepsInv(Apply(s, steps[0]), steps[1..], s');
    }
  }

  // ----- results -----------------------------------------------------------------------------------------------

  /// After any run: ids are unique; an active handle's id is registered, and
  /// by no other handle; the gauge lags the list by exactly the `listen` calls
  /// between their insertion and their increment; nothing was removed twice.
  lemma ReachesInv(steps: seq<Step>, s: State)
    requires Reaches(steps, s)
    ensures Inv(s)
  {
    hide Inv;
    assert Inv(Init()) by { InitInv(); }
    LeadsKeepsInv(Init(), steps, s);
  }

  lemma InitInv()
    ensures Inv(Init())
  {
    assert Ids([]) == {} && BegunIds({}) == {};
  }

  /// Once no `listen` is under way, what is registered is what some active
  /// handle owns plus what was detached, so no listener leaks; and the gauge
  /// says how many.
  lemma NoListenerLeaks(steps: seq<Step>, s: State)
    requires Reaches(steps, s) && s.uncounted == {}
    ensures forall id :: id in Ids(s.book.entries) <==> id in s.detached || exists k :: Owns(s.handles, k, id)
    ensures s.book.gauge == |s.book.entries|
  {
    ReachesInv(steps, s);
  }

  /// Who can take away listener `id` in this step: only its own handle, by being
  /// released, destroyed or overwritten by a different one.
  predicate Ends(s: State, step: Step, id: nat) {
    match step
    case Release(slot) => Owns(s.handles, slot, id)
    case Destroy(slot) => Owns(s.handles, slot, id)
    case MoveAssign(from, slot) => from != slot && Owns(s.handles, slot, id)
    case _ => false
  }

  /// A registered listener stays until its own handle ends it, and no longer:
  /// then that entry goes and every other stays, in its order.
  lemma OnlyTheHandleEnds(steps: seq<Step>, s: State, step: Step, id: nat)
    requires Enabled(s, step) && Reaches(steps, s) && id in Ids(s.book.entries)
    ensures id !in Ids(Apply(s, step).book.entries) <==> Ends(s, step, id)
    ensures Ends(s, step, id) ==> exists k: nat :: k < |s.book.entries| && s.book.entries[k].id == id &&
                                              Apply(s, step).book.entries == s.book.entries[..k] + s.book.entries[k + 1..]
  {
    ReachesInv(steps, s);
    match step
    case Release(slot) => ReleaseEnds(s, slot, id);
    case Destroy(slot) => ReleaseEnds(s, slot, id);
    case MoveAssign(from, slot) => ReleaseEnds(s, slot, id);
    case Insert(e) =>
      IdInsert(s.nextId, s.begun, Ids(s.book.entries), s.removed, e);
      InsertedKeeps(s.book, e, |s.uncounted|);
    case _ =>
  }

  lemma ReleaseEnds(s: State, slot: nat, id: nat)
    requires slot in s.handles && Inv(s) && id in Ids(s.book.entries)
    ensures var s' := ReleaseAt(s, slot);
            (id !in Ids(s'.book.entries) <==> Owns(s.handles, slot, id)) &&
            (Owns(s.handles, slot, id) ==> exists k: nat :: k < |s.book.entries| && s.book.entries[k].id == id &&
                                                       s'.book.entries == s.book.entries[..k] + s.book.entries[k + 1..])
  {
    var h := s.handles[slot];
    if h.active {
      assert Owns(s.handles, slot, h.id);
      ReleasedKeeps(s.book, h.id, |s.uncounted|);
      var k := EraseSplits(s.book.entries, h.id);
    }
  }

  /// Releasing again, or releasing or destroying what a handle was moved or
  /// detached to, changes nothing on the bus.
  lemma SpentIsHarmless(steps: seq<Step>, s: State, slot: nat)
    requires Reaches(steps, s) && slot in s.handles && !s.handles[slot].active
    ensures var s' := Apply(s, Release(slot)); s'.book == s.book && s'.removed == s.removed
    ensures var s' := Apply(s, Destroy(slot)); s'.book == s.book && s'.removed == s.removed
  {
    ReachesInv(steps, s);
  }

  /// Whatever the run, a delivery calls each listener at most once and in
  /// priority order.
  lemma DeliveryOrder(steps: seq<Step>, s: State, name: string)
    requires Reaches(steps, s)
    ensures Prioritized.Sorted(Heard(s.book.entries, name), Rank) && Distinct(Heard(s.book.entries, name))
  {
    ReachesInv(steps, s);
    HeardInOrder(s.book.entries, name);
  }
}
