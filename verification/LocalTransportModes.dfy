/// The queued and pooled modes make the same listener calls as the direct one.

module LocalTransportModes {
  import opened Listeners
  import opened LocalTransport
  import opened LocalTransportResults
  import opened LocalTransportProgress

  /// The units of a producer that publishes alone, in publishing order.
  function Units(p: nat, program: seq<Envelope>): (us: seq<Unit>)
    ensures |us| == |program|
  {
    seq(|program|, i requires 0 <= i < |program| => Unit(i, p, program[i]))
  }

  /// What publishing a program on the caller's thread calls: for each envelope
  /// in turn the listeners that hear it, in their order.
  function PublishedInTurn(c: Config, p: nat): seq<Invocation>
    requires p in c.programs
  {
    Flat(c, Units(p, c.programs[p]))
  }

  /// A delivery calls what the bus would call: the listeners that hear the name.
  lemma {:induction false} CallsAreHeard(es: seq<Entry>, u: Unit)
    ensures |Calls(es, u)| == |Heard(es, u.env.name)|
    ensures forall i :: 0 <= i < |Calls(es, u)| ==> Calls(es, u)[i] == Invocation(u, Heard(es, u.env.name)[i].id)
  {
    hide Hears;
    if es != [] {
      CallsAreHeard(es[1..], u);
    }
  }

  // ----- facts about sequences of units ------------------------------------------------------

  lemma {:induction false} OfAlone(us: seq<Unit>, p: nat)
    requires forall i :: 0 <= i < |us| ==> us[i].pid == p
    ensures Of(us, p) == us
  {
    if us != [] {
      var n := |us| - 1;
      OfAlone(us[..n], p);
      assert us == us[..n] + [us[n]];
    }
  }

  lemma {:induction false} FlatPrefix(c: Config, us: seq<Unit>, k: nat)
    requires k <= |us|
    ensures Flat(c, us[..k]) <= Flat(c, us)
    decreases |us|
  {
    if k == |us| {
      assert us[..k] == us;
    } else {
      var n := |us| - 1;
      FlatPrefix(c, us[..n], k);
      assert us[..n][..k] == us[..k];
    }
  }

  lemma {:induction false} CountByUnit(trace: seq<Invocation>, x: Invocation)
    ensures multiset(trace)[x] == multiset(Proj(trace, x.unit))[x]
  {
    if trace != [] {
      var n := |trace| - 1;
      assert trace == trace[..n] + [trace[n]];
      CountByUnit(trace[..n], x);
    }
  }

  lemma {:induction false} CountInFlat(c: Config, us: seq<Unit>, x: Invocation)
    requires Ticketed(us)
    ensures multiset(Flat(c, us))[x] == if x.unit in us then multiset(Fan(c, x.unit))[x] else 0
  {
    if us != [] {
      var n := |us| - 1;
      var u := us[n];
      assert us == us[..n] + [u];
      CountInFlat(c, us[..n], x);
      assert multiset(Flat(c, us)) == multiset(Flat(c, us[..n])) + multiset(Fan(c, u));
      if x.unit == u {
        IssuedOnce(us[..n], u);
        assert u !in us[..n];
      } else {
        assert x !in Fan(c, u);
      }
    }
  }

  // ----- who has been issued ---------------------------------------------------------------------

  lemma AllOfOne(c: Config, s: State, p: nat)
    requires ProgramInv(c, s.issued, s.todo) && c.programs.Keys == {p}
    ensures forall i :: 0 <= i < |s.issued| ==> s.issued[i].pid == p
  {
    forall i | 0 <= i < |s.issued| ensures s.issued[i].pid == p {
      assert s.issued[i].pid in c.programs.Keys;
    }
  }

  lemma IssuedInProgram(us: seq<Unit>, rest: seq<Envelope>, program: seq<Envelope>, p: nat)
    requires Ticketed(us) && Envs(us) + rest == program && forall i :: 0 <= i < |us| ==> us[i].pid == p
    ensures us <= Units(p, program) && (rest == [] ==> us == Units(p, program))
  {
    forall i | 0 <= i < |us| ensures us[i] == Units(p, program)[i] {
      assert Envs(us)[i] == program[i];
    }
  }

  /// A lone producer's issued units are the first of its program.
  lemma IssuedAlone(c: Config, s: State, p: nat)
    requires Inv(c, s) && c.programs.Keys == {p}
    ensures s.issued <= Units(p, c.programs[p])
    ensures s.todo[p] == [] ==> s.issued == Units(p, c.programs[p])
  {
    hide GateInv, PlaceInv, FlushInv, CallInv, HandInv, Serial, Ticketed, Of, Envs;
    AllOfOne(c, s, p);
    OfAlone(s.issued, p);
    assert Sent(c, s.issued, s.todo, p);
    IssuedInProgram(s.issued, s.todo[p], c.programs[p], p);
  }

  lemma AcceptedIsIssued(s: State)
    requires LedgerInv(s)
    ensures forall u :: u in s.accepted || u in s.held ==> u in s.issued
  {
    forall u | u in s.accepted || u in s.held ensures u in s.issued {
      assert multiset(s.accepted)[u] >= 1 || multiset(s.held)[u] >= 1;
      assert u in multiset(s.issued);
    }
  }

  lemma HandedAlone(held: set<Unit>, issued: seq<Unit>, accepted: seq<Unit>, p: nat)
    requires HandInv(held, issued, accepted)
    requires forall i :: 0 <= i < |issued| ==> issued[i].pid == p
    requires forall u :: u in accepted || u in held ==> u in issued
    ensures accepted <= issued && (held == {} ==> accepted == issued)
  {
    OfAlone(issued, p);
    forall i | 0 <= i < |accepted| ensures accepted[i].pid == p {
      assert accepted[i] in issued;
    }
    OfAlone(accepted, p);
    if u :| u in held {
      assert issued == accepted + [u];
    }
  }

  /// The pool accepts a lone producer's units in the order it issued them.
  lemma AcceptedAlone(c: Config, s: State, p: nat)
    requires Inv(c, s) && c.programs.Keys == {p} && s.refused == [] && s.inlined == []
    ensures s.accepted <= s.issued
    ensures s.held == {} ==> s.accepted == s.issued
  {
    hide GateInv, PlaceInv, FlushInv, LedgerInv, CallInv, HandInv, ProgramInv, Serial;
    AllOfOne(c, s, p);
    AcceptedIsIssued(s);
    HandedAlone(s.held, s.issued, s.accepted, p);
  }

  /// No envelope still to send bypasses the pool, and none has.
  ghost predicate Pooled(c: Config, s: State) {
    s.inlined == [] && forall p, e :: p in s.todo && e in s.todo[p] ==> !Inline(c, e)
  }

  lemma StepKeepsPooled(c: Config, s: State, step: Step)
    requires Enabled(c, s, step) && Pooled(c, s)
    ensures Pooled(c, Apply(c, s, step))
  {
    if step.Dispatch? || step.Wake? {
      assert s.todo[step.pid][0] in s.todo[step.pid];
      assert forall e :: e in s.todo[step.pid][1..] ==> e in s.todo[step.pid];
    }
  }

  lemma {:induction false} LeadsKeepsPooled(c: Config, s: State, steps: seq<Step>, s': State)
    requires Pooled(c, s) && Leads(c, s, steps, s')
    ensures Pooled(c, s')
    decreases |steps|
  {
    hide Pooled;
    if steps != [] {
      StepKeepsPooled(c, s, steps[0]);
      LeadsKeepsPooled(c, Apply(c, s, steps[0]), steps[1..], s');
    }
  }

  predicate NoDirectFlag(c: Config) {
    forall p, e :: p in c.programs && e in c.programs[p] ==> !e.direct
  }

  lemma NothingInlined(c: Config, steps: seq<Step>, s: State)
    requires Reaches(c, steps, s) && !c.mode.Direct? && NoDirectFlag(c)
    ensures s.inlined == []
  {
    LeadsKeepsPooled(c, Init(c), steps, s);
  }

  // ----- the three modes -----------------------------------------------------------------------------

  lemma SerialPrefix(c: Config, active: map<Unit, seq<Invocation>>, order: seq<Unit>, trace: seq<Invocation>, all: seq<Unit>)
    requires Serial(c, active, order, trace) && order <= all
    ensures trace <= Flat(c, all)
    ensures active.Keys == {} && order == all ==> trace == Flat(c, all)
  {
    assert order == all[..|order|];
    FlatPrefix(c, all, |order|);
    assert trace <= Flat(c, order);
  }

  /// Direct mode: a lone producer's calls are made in publishing order.
  lemma DirectInTurn(c: Config, steps: seq<Step>, s: State, p: nat)
    requires Reaches(c, steps, s) && c.mode.Direct? && c.programs.Keys == {p}
    ensures s.trace <= PublishedInTurn(c, p)
    ensures Done(s) ==> s.trace == PublishedInTurn(c, p)
  {
    ReachesInv(c, steps, s);
    IssuedAlone(c, s, p);
    assert |c.programs| == |c.programs.Keys| == 1;
    hide GateInv, PlaceInv, FlushInv, LedgerInv, CallInv, HandInv, Serial;
    SerialPrefix(c, s.inline, s.inlined, s.trace, Units(p, c.programs[p]));
  }

  /// Queue mode: at every moment the calls made are the first of those direct
  /// mode makes, and after a drain they are all of them.
  lemma QueueInTurn(c: Config, steps: seq<Step>, s: State, p: nat)
    requires Reaches(c, steps, s) && c.mode.Queue? && c.programs.Keys == {p}
    requires NoDirectFlag(c) && s.refused == []
    ensures s.trace <= PublishedInTurn(c, p)
    ensures Done(s) ==> s.trace == PublishedInTurn(c, p)
  {
    ReachesInv(c, steps, s);
    NothingInlined(c, steps, s);
    IssuedAlone(c, s, p);
    AcceptedAlone(c, s, p);
    assert s.accepted == s.started + s.queue;
    hide GateInv, PlaceInv, FlushInv, LedgerInv, CallInv, HandInv, Serial;
    assert s.started <= s.accepted;
    SerialPrefix(c, s.running, s.started, s.trace, Units(p, c.programs[p]));
  }

  lemma {:induction false} FlatIgnoresMode(c: Config, d: Config, us: seq<Unit>)
    requires c.listeners == d.listeners
    ensures Flat(c, us) == Flat(d, us)
  {
    if us != [] { FlatIgnoresMode(c, d, us[..|us| - 1]); }
  }

  /// Queue mode refines Direct mode: run the same program against the same
  /// listeners in both; whatever the capacity and the interleaving, the two
  /// drained runs made the same calls in the same order.
  lemma QueueRefinesDirect(c: Config, d: Config, steps: seq<Step>, s: State, steps': seq<Step>, t: State, p: nat)
    requires c.mode.Queue? && d.mode.Direct? && c.listeners == d.listeners
    requires c.programs == d.programs && c.programs.Keys == {p} && NoDirectFlag(c)
    requires Reaches(c, steps, s) && Done(s) && s.refused == []
    requires Reaches(d, steps', t) && Done(t)
    ensures s.trace == t.trace
  {
    QueueInTurn(c, steps, s, p);
    DirectInTurn(d, steps', t, p);
    FlatIgnoresMode(c, d, Units(p, c.programs[p]));
  }

  /// Any mode, any number of workers and producers: a drained run without
  /// refusals made exactly the calls of every issued unit's fan-out.
  lemma DrainedCalls(c: Config, steps: seq<Step>, s: State)
    requires Reaches(c, steps, s) && Done(s) && s.refused == []
    ensures multiset(s.trace) == multiset(Flat(c, s.issued))
  {
    forall x: Invocation ensures multiset(s.trace)[x] == multiset(Flat(c, s.issued))[x] {
      CountByUnit(s.trace, x);
      IssuedIsTicketed(c, steps, s);
      CountInFlat(c, s.issued, x);
      DrainedProj(c, steps, s, x.unit);
    }
  }

  lemma IssuedIsTicketed(c: Config, steps: seq<Step>, s: State)
    requires Reaches(c, steps, s)
    ensures Ticketed(s.issued)
  {
    ReachesInv(c, steps, s);
  }

  lemma DrainedProj(c: Config, steps: seq<Step>, s: State, u: Unit)
    requires Reaches(c, steps, s) && Done(s) && s.refused == []
    ensures Proj(s.trace, u) == if u in s.issued then Fan(c, u) else []
  {
    Conservation(c, steps, s, u);
    CallsOfUnit(c, steps, s, u);
    ReachesInv(c, steps, s);
    hide GateInv, PlaceInv, FlushInv, OrderInv;
    assert s.running.Keys == {} && u !in s.inline.Keys;
    assert u in s.completed <==> multiset(s.completed)[u] >= 1;
    assert u in s.inlined <==> multiset(s.inlined)[u] >= 1;
    assert u in s.started <==> multiset(s.started)[u] >= 1;
  }

  /// A pool of any size: the calls of a drained run are those of direct mode,
  /// though perhaps in another order.
  lemma PoolMakesSameCalls(c: Config, steps: seq<Step>, s: State, p: nat)
    requires Reaches(c, steps, s) && Done(s) && s.refused == [] && c.programs.Keys == {p}
    ensures multiset(s.trace) == multiset(PublishedInTurn(c, p))
  {
    DrainedCalls(c, steps, s);
    ReachesInv(c, steps, s);
    assert p in c.programs.Keys;
    assert p in s.todo && s.todo[p] == [];
    IssuedAlone(c, s, p);
  }

  /// Several producers in front of one queue: the drained calls are those of
  /// publishing the accepted envelopes in turn, and that order keeps the order
  /// of every producer's own program.
  lemma QueueInterleaves(c: Config, steps: seq<Step>, s: State)
    requires Reaches(c, steps, s) && Done(s) && s.refused == [] && c.mode.Queue? && NoDirectFlag(c)
    ensures s.trace == Flat(c, s.accepted)
    ensures forall p :: p in c.programs ==> Envs(Of(s.accepted, p)) == c.programs[p]
  {
    ReachesInv(c, steps, s);
    NothingInlined(c, steps, s);
    hide GateInv, PlaceInv, FlushInv, CallInv;
    assert s.accepted == s.started;
    forall p | p in c.programs ensures Envs(Of(s.accepted, p)) == c.programs[p] {
      assert Sent(c, s.issued, s.todo, p);
      assert Of(s.issued, p) == Of(s.accepted, p);
    }
  }
}
