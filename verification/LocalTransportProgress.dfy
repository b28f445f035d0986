/// Deadlock freedom and termination of the in-process transport: unless all
/// work is done some thread can move, and no run is longer than a bound fixed
/// by its workload and the number of spurious wake-ups in it.
///
/// A listener call is one step: handlers are taken to return and neither to
/// publish to this transport nor to drain it.

module LocalTransportProgress {
  import opened Listeners
  import opened LocalTransport
  import opened LocalTransportResults

  /// Every producer's program sent, every unit gone, every flusher returned.
  ghost predicate Done(s: State) {
    (forall p :: p in s.todo ==> s.todo[p] == []) &&
    s.held == {} && s.queue == [] && s.running.Keys == {} && s.inline.Keys == {} &&
    s.gate.sleeping == {} && s.gate.notified == {} &&
    s.flushTodo == {} && s.gate.flushWaiting == {} && s.gate.flushAwake == {}
  }

  ghost predicate CanStep(c: Config, s: State) {
    exists step :: Enabled(c, s, step) && !step.IsSpurious()
  }

  // ----- progress ---------------------------------------------------------------------------

  lemma SomeoneToWake(g: Gate) returns (woken: set<nat>)
    ensures MayWake(g, woken)
  {
    if g.sleeping == {} {
      woken := {};
    } else {
      var p :| p in g.sleeping;
      woken := {p};
    }
  }

  /// While a unit is counted, its holder can move.
  lemma InFlightCanStep(c: Config, s: State)
    requires Inv(c, s) && Workers(c) >= 1
    requires s.held != {} || s.queue != [] || s.running.Keys != {}
    ensures CanStep(c, s)
  {
    hide GateInv, PlaceInv, FlushInv, LedgerInv, CallInv, OrderInv;
    if s.held != {} {
      var u :| u in s.held;
      assert Enabled(c, s, Accept(u));
    } else if s.running.Keys != {} {
      var u :| u in s.running.Keys;
      if s.running[u] != [] {
        assert Enabled(c, s, Invoke(u));
      } else {
        var woken := SomeoneToWake(s.gate);
        assert Enabled(c, s, Complete(u, woken));
      }
    } else {
      assert |s.running| == |s.running.Keys|;
      assert Enabled(c, s, Start);
    }
  }

  lemma ProducerCanStep(c: Config, s: State, p: nat)
    requires Inv(c, s) && p in s.todo && s.todo[p] != []
    requires s.held == {} && s.queue == [] && s.running.Keys == {} && s.inline.Keys == {}
    ensures CanStep(c, s)
  {
    hide LedgerInv, CallInv, OrderInv, FlushInv;
    assert |s.running| == |s.running.Keys|;
    if s.gate.notified != {} {
      var q :| q in s.gate.notified;
      assert Enabled(c, s, Wake(q));
    } else {
      assert s.gate.sleeping == {};
      assert Enabled(c, s, Dispatch(p));
    }
  }

  /// Deadlock freedom: in every reachable state that is not done, some step
  /// other than a spurious wake-up is enabled.
  lemma Progress(c: Config, steps: seq<Step>, s: State)
    requires Reaches(c, steps, s) && !Done(s)
    ensures CanStep(c, s)
  {
    ReachesInv(c, steps, s);
    InvProgress(c, s);
  }

  lemma InvProgress(c: Config, s: State)
    requires Inv(c, s) && !Done(s)
    ensures CanStep(c, s)
  {
    hide Inv;
    if s.inline.Keys != {} {
      var u :| u in s.inline.Keys;
      assert Enabled(c, s, if s.inline[u] != [] then InlineInvoke(u) else InlineReturn(u));
    } else if s.held != {} || s.queue != [] || s.running.Keys != {} {
      if c.mode.Direct? { DirectIsIdle(c, s); }
      WorkersExist(c, s);
      InFlightCanStep(c, s);
    } else if exists p :: p in s.todo && s.todo[p] != [] {
      var p :| p in s.todo && s.todo[p] != [];
      ProducerCanStep(c, s, p);
    } else {
      FlusherCanStep(c, s);
    }
  }

  /// In Direct mode the pool is never used.
  lemma DirectIsIdle(c: Config, s: State)
    requires Inv(c, s) && c.mode.Direct?
    ensures s.held == {} && s.queue == [] && s.running.Keys == {}
  {
    hide GateInv, PlaceInv, FlushInv, CallInv, ProgramInv, HandInv, Serial;
    assert multiset(s.accepted) + multiset(s.refused) + multiset(s.held) == multiset{};
    assert s.accepted == [] by { assert |multiset(s.accepted)| == |s.accepted|; }
    assert s.started == [] && s.queue == [];
    forall u ensures u !in s.running.Keys {
      assert multiset(s.running.Keys)[u] <= multiset(s.started)[u] == 0;
    }
  }

  lemma WorkersExist(c: Config, s: State)
    requires Inv(c, s) && !c.mode.Direct?
    ensures Workers(c) >= 1
  {
  }

  lemma FlusherCanStep(c: Config, s: State)
    requires Inv(c, s) && !Done(s)
    requires s.held == {} && s.queue == [] && s.running.Keys == {} && s.inline.Keys == {}
    requires forall p :: p in s.todo ==> s.todo[p] == []
    ensures CanStep(c, s)
  {
    hide LedgerInv, CallInv, OrderInv, FlushInv;
    assert |s.running| == |s.running.Keys|;
    assert s.gate.sleeping == {} && s.gate.notified == {} && s.gate.flushWaiting == {};
    if s.flushTodo != {} {
      var f :| f in s.flushTodo;
      assert Enabled(c, s, Flush(f));
    } else {
      var f :| f in s.gate.flushAwake;
      assert Enabled(c, s, FlushWake(f));
    }
  }

  // ----- a measure every step but a spurious wake-up brings down -----------------------------------

  ghost function SumLen<K, V>(m: map<K, seq<V>>): nat
    decreases |m|
  {
    if m == map[] then 0
    else
      var k :| k in m;
      MapLess(m, k);
      |m[k]| + SumLen(m - {k})
  }

  lemma MapLess<K, V>(m: map<K, V>, k: K)
    requires k in m
    ensures |m - {k}| == |m| - 1
  {
    assert (m - {k}).Keys == m.Keys - {k};
    assert |m - {k}| == |(m - {k}).Keys| && |m| == |m.Keys|;
  }

  lemma {:induction false} SumLenAt<K, V>(m: map<K, seq<V>>, k: K)
    requires k in m
    ensures SumLen(m) == |m[k]| + SumLen(m - {k})
    decreases |m|
  {
    var j :| j in m && SumLen(m) == |m[j]| + SumLen(m - {j});
    if j != k {
      MapLess(m, j);
      MapLess(m, k);
      SumLenAt(m - {j}, k);
      SumLenAt(m - {k}, j);
      assert m - {j} - {k} == m - {k} - {j};
    }
  }

  lemma SumLenPut<K, V>(m: map<K, seq<V>>, k: K, v: seq<V>)
    ensures SumLen(m[k := v]) == (if k in m then SumLen(m) - |m[k]| else SumLen(m)) + |v|
  {
    SumLenAt(m[k := v], k);
    if k in m {
      SumLenAt(m, k);
      assert m[k := v] - {k} == m - {k};
    } else {
      assert m[k := v] - {k} == m;
    }
  }

  /// What is left to do for an envelope falls at every step of its way.
  ghost function Weight(c: Config, s: State): nat {
    var f := |c.listeners|;
    Rows(SumLen(s.todo), f + 5) + Rows(|s.held|, f + 4) + Rows(|s.queue|, f + 3) +
    |s.running| + SumLen(s.running) + |s.inline| + SumLen(s.inline)
  }

  /// `n` times `w`.
  ghost function Rows(n: nat, w: nat): nat {
    if n == 0 then 0 else w + Rows(n - 1, w)
  }

  /// What is left to do in the waiting rooms.
  ghost function Unrest(c: Config, s: State): int {
    2 * |c.programs| - 2 * |s.gate.sleeping| - |s.gate.notified| + 2 * |s.flushTodo| + |s.gate.flushAwake|
  }

  ghost function UnrestLimit(c: Config): nat {
    2 * |c.programs| + 3 * |c.flushers| + 1
  }

  lemma SubsetSize<T>(a: set<T>, b: set<T>)
    requires a <= b
    ensures |a| <= |b|
  {
    assert |b - a| == |b| - |a|;
  }

  lemma UnrestBounded(c: Config, s: State)
    requires Inv(c, s)
    ensures 0 <= Unrest(c, s) < UnrestLimit(c)
  {
    hide LedgerInv, CallInv, OrderInv;
    assert s.gate.sleeping + s.gate.notified <= c.programs.Keys by {
      assert forall p :: p in s.gate.sleeping || p in s.gate.notified ==> p in s.todo.Keys;
    }
    assert |s.gate.sleeping + s.gate.notified| == |s.gate.sleeping| + |s.gate.notified|;
    SubsetSize(s.gate.sleeping + s.gate.notified, c.programs.Keys);
    assert |c.programs.Keys| == |c.programs|;
    SubsetSize(s.flushTodo, c.flushers);
    SubsetSize(s.gate.flushAwake, c.flushers);
  }

  ghost function Measure(c: Config, s: State): int {
    Weight(c, s) * UnrestLimit(c) + Unrest(c, s)
  }

  lemma {:induction false} RowsPut(n: nat, w: nat)
    requires n > 0
    ensures Rows(n, w) == w + Rows(n - 1, w)
  {
  }

  /// A step in the waiting rooms changes no work and lowers the unrest.
  ghost predicate Calms(c: Config, s: State, s': State) {
    SameWork(s, s') && Unrest(c, s') < Unrest(c, s)
  }

  lemma SetAdd(a: set<nat>, x: nat)
    ensures x !in a ==> |a + {x}| == |a| + 1
    ensures x in a ==> a + {x} == a && |a - {x}| == |a| - 1
    ensures x !in a ==> a - {x} == a
  {
  }

  lemma BlockedCalms(c: Config, s: State, p: nat)
    requires p in s.todo && s.todo[p] != [] && p !in s.gate.sleeping && Full(c.capacity, s.gate)
    ensures Calms(c, s, AtGate(c, s, p))
  {
    SetAdd(s.gate.sleeping, p);
    SetAdd(s.gate.notified, p);
  }

  lemma FlushCalms(c: Config, s: State, f: nat)
    requires f in s.flushTodo || f in s.gate.flushAwake
    ensures Calms(c, s, AtFlush(s, f))
  {
    SetAdd(s.flushTodo, f);
    SetAdd(s.gate.flushAwake, f);
  }

  lemma ReserveWorks(c: Config, s: State, s': State, p: nat, u: Unit)
    requires p in s.todo && s.todo[p] != [] && u !in s.held
    requires s'.todo == s.todo[p := s.todo[p][1..]] && s'.held == s.held + {u}
    requires s'.inline == s.inline && s'.queue == s.queue && s'.running == s.running
    ensures Weight(c, s') < Weight(c, s)
  {
    hide Weight, SumLen;
    SumLenPut(s.todo, p, s.todo[p][1..]);
    OneMoreHeld(c, s, s');
  }

  lemma OneMoreHeld(c: Config, s: State, s': State)
    requires SumLen(s'.todo) == SumLen(s.todo) - 1 && |s'.held| == |s.held| + 1
    requires s'.inline == s.inline && s'.queue == s.queue && s'.running == s.running
    ensures Weight(c, s') < Weight(c, s)
  {
    hide Rows, SumLen;
    RowsShift(|c.listeners| + 4, SumLen(s.todo), |s.held|);
  }

  lemma RowsShift(w: nat, n: nat, m: nat)
    requires n > 0
    ensures Rows(n - 1, w + 1) + Rows(m + 1, w) == Rows(n, w + 1) + Rows(m, w) - 1
  {
  }

  lemma InlineWorks(c: Config, s: State, s': State, p: nat, u: Unit)
    requires p in s.todo && s.todo[p] != [] && u !in s.inline
    requires s'.todo == s.todo[p := s.todo[p][1..]] && s'.inline == s.inline[u := Fan(c, u)]
    requires s'.held == s.held && s'.queue == s.queue && s'.running == s.running
    ensures Weight(c, s') < Weight(c, s)
  {
    hide Rows, SumLen, Fan;
    SumLenPut(s.todo, p, s.todo[p][1..]);
    SumLenPut(s.inline, u, Fan(c, u));
    MapGrows(s.inline, u, Fan(c, u));
    RowsPut(SumLen(s.todo), |c.listeners| + 5);
  }

  lemma AcceptWorks(c: Config, s: State, u: Unit)
    requires u in s.held
    ensures Weight(c, Apply(c, s, Accept(u))) < Weight(c, s)
  {
    hide Weight, SumLen;
    HeldLoses(s.held, u);
    OneMoreQueued(c, s, Apply(c, s, Accept(u)));
  }

  lemma OneMoreQueued(c: Config, s: State, s': State)
    requires s'.todo == s.todo && |s'.held| == |s.held| - 1 && |s'.queue| == |s.queue| + 1
    requires s'.inline == s.inline && s'.running == s.running
    ensures Weight(c, s') < Weight(c, s)
  {
    hide Rows, SumLen;
    RowsShift(|c.listeners| + 3, |s.held|, |s.queue|);
  }

  lemma RefuseWorks(c: Config, s: State, u: Unit, woken: set<nat>)
    requires u in s.held && MayWake(s.gate, woken)
    ensures Weight(c, Apply(c, s, Refuse(u, woken))) < Weight(c, s)
  {
    hide Rows, SumLen;
    HeldLoses(s.held, u);
    RowsPut(|s.held|, |c.listeners| + 4);
  }

  lemma StartWorks(c: Config, s: State)
    requires s.queue != [] && |s.running| < Workers(c) && s.queue[0] !in s.running
    ensures Weight(c, Apply(c, s, Start)) < Weight(c, s)
  {
    hide Weight, SumLen, Fan;
    var u := s.queue[0];
    SumLenPut(s.running, u, Fan(c, u));
    MapGrows(s.running, u, Fan(c, u));
    OneMoreRunning(c, s, Apply(c, s, Start));
  }

  lemma OneMoreRunning(c: Config, s: State, s': State)
    requires s'.todo == s.todo && s'.held == s.held && |s'.queue| == |s.queue| - 1 && s'.inline == s.inline
    requires |s'.running| == |s.running| + 1 && SumLen(s'.running) <= SumLen(s.running) + |c.listeners|
    ensures Weight(c, s') < Weight(c, s)
  {
    hide Rows, SumLen;
    RowsPut(|s.queue|, |c.listeners| + 3);
  }

  lemma PoppedCall<K>(m: map<K, seq<Invocation>>, u: K)
    requires u in m && m[u] != []
    ensures SumLen(m[u := m[u][1..]]) == SumLen(m) - 1 && |m[u := m[u][1..]]| == |m|
  {
    SumLenPut(m, u, m[u][1..]);
    assert m[u := m[u][1..]].Keys == m.Keys;
    assert |m[u := m[u][1..]]| == |m[u := m[u][1..]].Keys| && |m| == |m.Keys|;
  }

  lemma DroppedUnit<K>(m: map<K, seq<Invocation>>, u: K)
    requires u in m && m[u] == []
    ensures SumLen(m - {u}) == SumLen(m) && |m - {u}| == |m| - 1
  {
    SumLenAt(m, u);
    MapLess(m, u);
  }

  lemma WorkerWorks(c: Config, s: State, step: Step)
    requires Enabled(c, s, step) && (step.Invoke? || step.Complete? || step.InlineInvoke? || step.InlineReturn?)
    ensures Weight(c, Apply(c, s, step)) < Weight(c, s)
  {
    match step
    case Invoke(u) => PoppedCall(s.running, u);
    case Complete(u, _) => DroppedUnit(s.running, u);
    case InlineInvoke(u) => PoppedCall(s.inline, u);
    case InlineReturn(u) => DroppedUnit(s.inline, u);
  }

  lemma SameWorkSameWeight(c: Config, s: State, s': State)
    requires SameWork(s, s')
    ensures Weight(c, s') == Weight(c, s)
  {
  }

  /// Each step lowers the work, or keeps the work and lowers the unrest.
  lemma StepWorks(c: Config, s: State, step: Step)
    requires Enabled(c, s, step) && !step.IsSpurious() && Inv(c, s)
    ensures var s' := Apply(c, s, step);
            Weight(c, s') < Weight(c, s) || (Weight(c, s') == Weight(c, s) && Unrest(c, s') < Unrest(c, s))
  {
    hide GateInv, PlaceInv, FlushInv, LedgerInv, CallInv, OrderInv, Weight, Unrest;
    var s' := Apply(c, s, step);
    match step
    case Dispatch(p) =>
      TicketIsNew(s, p);
      if Inline(c, s.todo[p][0]) { InlineWorks(c, s, s', p, Next(s, p)); }
      else if Full(c.capacity, s.gate) { BlockedCalms(c, s, p); SameWorkSameWeight(c, s, s'); }
      else { ReserveWorks(c, s, s', p, Next(s, p)); }
    case Wake(p) =>
      TicketIsNew(s, p);
      if Full(c.capacity, s.gate) { NotifiedIsAwake(c, s, p); BlockedCalms(c, s, p); SameWorkSameWeight(c, s, s'); }
      else { ReserveWorks(c, s, s', p, Next(s, p)); }
    case Accept(u) => AcceptWorks(c, s, u);
    case Refuse(u, woken) => RefuseWorks(c, s, u, woken);
    case Start => StartIsNew(s); StartWorks(c, s);
    case Invoke(u) => WorkerWorks(c, s, step);
    case Complete(u, woken) => WorkerWorks(c, s, step);
    case InlineInvoke(u) => WorkerWorks(c, s, step);
    case InlineReturn(u) => WorkerWorks(c, s, step);
    case Flush(f) => FlushCalms(c, s, f); SameWorkSameWeight(c, s, s');
    case FlushWake(f) => FlushCalms(c, s, f); SameWorkSameWeight(c, s, s');
  }

  lemma SleepersApart(c: Config, s: State)
    requires Inv(c, s)
    ensures s.gate.sleeping !! s.gate.notified
  {
  }

  lemma NotifiedIsAwake(c: Config, s: State, p: nat)
    requires Inv(c, s) && p in s.gate.notified
    ensures p !in s.gate.sleeping
  {
  }

  lemma SleeperUnrest(c: Config, s: State, s': State, p: nat)
    requires p in s.gate.sleeping && p !in s.gate.notified
    requires s' == s.(gate := s.gate.(sleeping := s.gate.sleeping - {p}, notified := s.gate.notified + {p}))
    ensures SameWork(s, s') && Unrest(c, s') == Unrest(c, s) + 1
  {
    SetAdd(s.gate.sleeping, p);
    SetAdd(s.gate.notified, p);
  }

  lemma FlusherUnrest(c: Config, s: State, s': State, f: nat)
    requires s' == s.(gate := s.gate.(flushWaiting := s.gate.flushWaiting - {f}, flushAwake := s.gate.flushAwake + {f}))
    ensures SameWork(s, s') && Unrest(c, s') <= Unrest(c, s) + 1
  {
    SetAdd(s.gate.flushAwake, f);
  }

  /// A spurious wake-up leaves the work alone and adds one to the unrest.
  lemma SpuriousUnrest(c: Config, s: State, step: Step)
    requires Enabled(c, s, step) && step.IsSpurious() && s.gate.sleeping !! s.gate.notified
    ensures var s' := Apply(c, s, step);
            Weight(c, s') == Weight(c, s) && Unrest(c, s') <= Unrest(c, s) + 1
  {
    hide Weight, Unrest;
    var s' := Apply(c, s, step);
    match step
    case SpuriousWake(p) => SleeperUnrest(c, s, s', p); SameWorkSameWeight(c, s, s');
    case FlushSpuriousWake(f) => FlusherUnrest(c, s, s', f); SameWorkSameWeight(c, s, s');
  }

  lemma LowerRow(w: nat, w': nat, limit: nat, x: int, x': int)
    requires w' < w && 0 <= x < limit && 0 <= x' < limit
    ensures w' * limit + x' < w * limit + x
  {
    assert w * limit >= (w' + 1) * limit == w' * limit + limit;
  }

  lemma StepLowersMeasure(c: Config, s: State, step: Step)
    requires Enabled(c, s, step) && Inv(c, s)
    ensures Measure(c, Apply(c, s, step)) <= Measure(c, s) + (if step.IsSpurious() then 1 else -1)
  {
    var s' := Apply(c, s, step);
    SleepersApart(c, s);
    hide Inv, Weight, Unrest, UnrestLimit, Apply, Enabled;
    StepKeepsInv(c, s, step);
    UnrestBounded(c, s);
    UnrestBounded(c, s');
    if step.IsSpurious() {
      SpuriousUnrest(c, s, step);
    } else {
      StepWorks(c, s, step);
      if Weight(c, s') < Weight(c, s) {
        LowerRow(Weight(c, s), Weight(c, s'), UnrestLimit(c), Unrest(c, s), Unrest(c, s'));
      }
    }
  }

  // ----- finite runs -----------------------------------------------------------------------------------

  function Spurious(steps: seq<Step>): nat {
    if steps == [] then 0 else (if steps[0].IsSpurious() then 1 else 0) + Spurious(steps[1..])
  }

  lemma MeasureNonNegative(c: Config, s: State)
    requires Inv(c, s)
    ensures Measure(c, s) >= 0
  {
    hide Inv, Weight, Unrest, UnrestLimit;
    UnrestBounded(c, s);
    assert Weight(c, s) * UnrestLimit(c) >= 0;
  }

  lemma {:induction false} LeadsBounded(c: Config, s: State, steps: seq<Step>, s': State)
    requires Inv(c, s) && Leads(c, s, steps, s')
    ensures |steps| <= Measure(c, s) + 2 * Spurious(steps)
    decreases |steps|
  {
    hide Inv, Measure;
    if steps == [] {
      MeasureNonNegative(c, s);
    } else {
      StepLowersMeasure(c, s, steps[0]);
      StepKeepsInv(c, s, steps[0]);
      LeadsBounded(c, Apply(c, s, steps[0]), steps[1..], s');
    }
  }

  /// Every finite workload drains: no run is longer than a bound set by the
  /// workload plus two steps per spurious wake-up, and a run that no thread can
  /// continue has done all its work and let every flusher return.
  lemma EveryRunDrains(c: Config, steps: seq<Step>, s: State)
    requires Reaches(c, steps, s)
    ensures |steps| <= Measure(c, Init(c)) + 2 * Spurious(steps)
    ensures !CanStep(c, s) <==> Done(s)
  {
    hide Inv, Measure, Done, CanStep;
    InitInv(c);
    LeadsBounded(c, Init(c), steps, s);
    ReachesInv(c, steps, s);
    if !Done(s) {
      InvProgress(c, s);
    } else {
      DoneIsStuck(c, s);
    }
  }

  lemma DoneIsStuck(c: Config, s: State)
    requires Done(s)
    ensures !CanStep(c, s)
  {
    assert s.gate.notified == {} && forall u :: u in s.running || u in s.inline ==> u in s.running.Keys + s.inline.Keys;
  }
}
