/// What holds of every run of the in-process transport: the counter is exact,
/// no wake-up is lost, nothing is lost or doubled, and flush() waits for all.

module LocalTransportResults {
  import opened Listeners
  import opened LocalTransport

  // ----- reachable states ----------------------------------------------------------------

  lemma InitInv(c: Config)
    requires ValidConfig(c)
    ensures Inv(c, Init(c))
  {
    forall p | p in c.programs ensures Sent(c, [], c.programs, p) {
      assert Envs(Of([], p)) == [];
    }
  }

  lemma {:induction false} LeadsKeepsInv(c: Config, s: State, steps: seq<Step>, s': State)
    requires Inv(c, s) && Leads(c, s, steps, s')
    ensures Inv(c, s')
    decreases |steps|
  {
    hide Inv;
    if steps != [] {
      StepKeepsInv(c, s, steps[0]);
      LeadsKeepsInv(c, Apply(c, s, steps[0]), steps[1..], s');
    }
  }

  lemma ReachesInv(c: Config, steps: seq<Step>, s: State)
    requires Reaches(c, steps, s)
    ensures Inv(c, s)
  {
    hide Inv;
    InitInv(c);
    LeadsKeepsInv(c, Init(c), steps, s);
  }

  /// The counter never underflows, never exceeds a bound that is set, and is
  /// the number of units counted but not completed.
  lemma OutstandingExact(c: Config, steps: seq<Step>, s: State)
    requires Reaches(c, steps, s)
    ensures s.gate.outstanding == |s.held| + |s.queue| + |s.running|
    ensures c.capacity != 0 ==> s.gate.outstanding <= c.capacity
    ensures forall u, woken :: Enabled(c, s, Refuse(u, woken)) || Enabled(c, s, Complete(u, woken)) ==> s.gate.outstanding >= 1
  {
    ReachesInv(c, steps, s);
    forall u, woken | Enabled(c, s, Refuse(u, woken)) || Enabled(c, s, Complete(u, woken))
      ensures s.gate.outstanding >= 1
    {
      if u in s.running { assert |s.running| >= 1 by { assert u in s.running.Keys && |s.running.Keys| == |s.running|; } }
    }
  }

  /// No lost wake-up: while a producer sleeps, at least as many woken ones are
  /// on their way to the mutex as there are free slots; and no flusher sleeps
  /// at zero.
  lemma NoLostWakeup(c: Config, steps: seq<Step>, s: State)
    requires Reaches(c, steps, s)
    ensures s.gate.sleeping != {} ==> c.capacity != 0 && |s.gate.notified| >= c.capacity - s.gate.outstanding
    ensures s.gate.flushWaiting != {} ==> s.gate.outstanding != 0
  {
    ReachesInv(c, steps, s);
  }

  // ----- conservation -----------------------------------------------------------------------

  /// Where a unit that got past the gate is.
  function Places(s: State, u: Unit): nat {
    multiset(s.inlined)[u] + multiset(s.held)[u] + multiset(s.queue)[u] + multiset(s.running.Keys)[u] +
    multiset(s.completed)[u] + multiset(s.refused)[u]
  }

  /// Every unit is in exactly one place and no other unit is anywhere: none is
  /// lost, none is doubled, and a worker starts each at most once.
  lemma Conservation(c: Config, steps: seq<Step>, s: State, u: Unit)
    requires Reaches(c, steps, s)
    ensures Places(s, u) == (if u in s.issued then 1 else 0)
    ensures multiset(s.started)[u] == multiset(s.running.Keys)[u] + multiset(s.completed)[u] <= 1
    ensures s.accepted == s.started + s.queue
  {
    ReachesInv(c, steps, s);
    ColumnsDisjoint(s, u);
    IssuedOnce(s.issued, u);
    assert u in s.issued <==> multiset(s.issued)[u] >= 1;
    assert multiset(s.accepted) == multiset(s.started) + multiset(s.queue);
  }

  /// A unit that has completed made exactly the calls of one fan-out, in order;
  /// one whose submission was refused made none.
  lemma CallsOfUnit(c: Config, steps: seq<Step>, s: State, u: Unit)
    requires Reaches(c, steps, s)
    ensures u in s.completed ==> Proj(s.trace, u) == Fan(c, u)
    ensures u in s.inlined && u !in s.inline ==> Proj(s.trace, u) == Fan(c, u)
    ensures u in s.refused ==> Proj(s.trace, u) == []
  {
    hide GateInv, PlaceInv, FlushInv, OrderInv;
    ReachesInv(c, steps, s);
    ColumnsDisjoint(s, u);
    assert multiset(s.accepted) == multiset(s.started) + multiset(s.queue);
    assert u in s.started <==> multiset(s.started)[u] >= 1;
    if u in s.inline { InlineIsInlined(s, u); }
    if u in s.running { RunningIsStarted(s, u); assert multiset(s.running.Keys)[u] == 1; }
    if u in s.completed || u in s.inlined { assert CallsOf(c, s.trace, Left(s.running, s.inline, u), u); }
    assert Proj(s.trace, u) + [] == Proj(s.trace, u);
  }

  /// When flush() returns, every unit counted before has completed or been refused.
  lemma FlushReturns(c: Config, steps: seq<Step>, s: State, f: nat)
    requires Reaches(c, steps, s)
    requires Enabled(c, s, Flush(f)) || Enabled(c, s, FlushWake(f))
    requires f in AtFlush(s, f).flushed && f !in s.flushed
    ensures multiset(s.issued) == multiset(s.inlined) + multiset(s.completed) + multiset(s.refused)
  {
    ReachesInv(c, steps, s);
    assert s.held == {} && s.queue == [] && |s.running.Keys| == 0;
    assert s.accepted == s.started;
  }

  // ----- who bypasses the pool ----------------------------------------------------------------

  /// What was delivered by its caller was to be, and what went to the gate was not.
  ghost predicate Divided(c: Config, inlined: seq<Unit>, held: set<Unit>, accepted: seq<Unit>, refused: seq<Unit>) {
    (forall u :: u in inlined ==> c.mode.Direct? || u.env.direct) &&
    (forall u :: u in held || u in accepted || u in refused ==> !c.mode.Direct? && !u.env.direct)
  }

  lemma StepKeepsDivided(c: Config, s: State, step: Step)
    requires Enabled(c, s, step) && Divided(c, s.inlined, s.held, s.accepted, s.refused)
    requires PlaceInv(c, s.gate.sleeping, s.gate.notified, s.todo, s.held + s.inline.Keys)
    ensures var s' := Apply(c, s, step); Divided(c, s'.inlined, s'.held, s'.accepted, s'.refused)
  {
    if step.Wake? {
      assert Waits(c, s.todo, step.pid);
    }
  }

  lemma {:induction false} LeadsKeepsDivided(c: Config, s: State, steps: seq<Step>, s': State)
    requires Inv(c, s) && Divided(c, s.inlined, s.held, s.accepted, s.refused) && Leads(c, s, steps, s')
    ensures Divided(c, s'.inlined, s'.held, s'.accepted, s'.refused)
    decreases |steps|
  {
    if steps != [] {
      StepKeepsDivided(c, s, steps[0]);
      StepKeepsInv(c, s, steps[0]);
      hide Inv, Divided, Apply, Enabled;
      LeadsKeepsDivided(c, Apply(c, s, steps[0]), steps[1..], s');
    }
  }

  /// An envelope is delivered on its caller's thread exactly when the transport is
  /// in direct mode or the envelope carries the Direct flag; then it is never
  /// counted, queued, refused or run by a worker.
  lemma DirectBypassesPool(c: Config, steps: seq<Step>, s: State, u: Unit)
    requires Reaches(c, steps, s) && u in s.issued
    ensures u in s.inlined <==> c.mode.Direct? || u.env.direct
    ensures c.mode.Direct? || u.env.direct ==>
              u !in s.held && u !in s.queue && u !in s.running && u !in s.completed && u !in s.refused
  {
    assert Inv(c, Init(c)) by { InitInv(c); }
    LeadsKeepsDivided(c, Init(c), steps, s);
    SomewhereIssued(c, steps, s, u);
  }

  /// Nor does its producer ever wait at the gate for it.
  lemma DirectNeverWaits(c: Config, steps: seq<Step>, s: State, p: nat)
    requires Reaches(c, steps, s) && (p in s.gate.sleeping || p in s.gate.notified)
    ensures p in s.todo && s.todo[p] != [] && !c.mode.Direct? && !s.todo[p][0].direct
  {
    ReachesInv(c, steps, s);
    assert Waits(c, s.todo, p);
  }

  lemma SomewhereIssued(c: Config, steps: seq<Step>, s: State, u: Unit)
    requires Reaches(c, steps, s) && u in s.issued
    ensures u in s.inlined || u in s.accepted || u in s.refused || u in s.held
    ensures u in s.queue || u in s.running || u in s.completed ==> u in s.accepted
  {
    ReachesInv(c, steps, s);
    hide GateInv, PlaceInv, FlushInv, CallInv, OrderInv;
    ColumnsDisjoint(s, u);
    assert multiset(s.issued)[u] >= 1;
    assert u in s.running ==> multiset(s.running.Keys)[u] == 1;
  }

  /// A worker is free exactly while fewer units run than the mode allows: one in
  /// queue mode, the configured number in a pool.
  lemma StartsWhenFree(c: Config, s: State)
    ensures c.mode.ThreadPool? ==> (Enabled(c, s, Start) <==> s.queue != [] && |s.running| < c.maxWorkers)
    ensures c.mode.Queue? ==> (Enabled(c, s, Start) <==> s.queue != [] && s.running == map[])
  {
  }
}
