/// What one publish does, whatever middleware, transports and listeners do:
/// which of them are called, in which order, how often, and what is counted.

module BusResults {
  import opened Listeners
  import opened Bus
  import Prioritized

  function IdsOf<T>(xs: seq<T>, id: T -> nat): (ids: seq<nat>)
    ensures |ids| == |xs| && forall i :: 0 <= i < |xs| ==> ids[i] == id(xs[i])
  {
    seq(|xs|, i requires 0 <= i < |xs| => id(xs[i]))
  }

  function MiddlewareId(m: Middleware): nat {
    m.id
  }

  function TransportId(t: Transport): nat {
    t.id
  }

  function EntryId(e: Entry): nat {
    e.id
  }

  function Reverse(ids: seq<nat>): (r: seq<nat>)
    ensures |r| == |ids| && forall i :: 0 <= i < |ids| ==> r[i] == ids[|ids| - 1 - i]
  {
    seq(|ids|, i requires 0 <= i < |ids| => ids[|ids| - 1 - i])
  }

  /// The transports a publish may use, in their order.
  function EligibleOf(ts: seq<Transport>, localOnly: bool, remoteOnly: bool): seq<Transport> {
    if ts == [] then []
    else (if Eligible(ts[0], localOnly, remoteOnly) then [ts[0]] else []) + EligibleOf(ts[1..], localOnly, remoteOnly)
  }

  /// What the called code counted while it ran.
  function Raised(tr: seq<Event>): Counts {
    if tr == [] then NOTHING else Plus(tr[0].raised, Raised(tr[1..]))
  }

  /// What the last call left, or what there was if none was made: the bus itself
  /// changes none of its containers, nor the flags.
  function LastLeft(w: World, tr: seq<Event>): World {
    if tr == [] then w else tr[|tr| - 1].left
  }

  /// Every call of `tr` went to the code it names, with the history and the state
  /// of that moment, and is recorded with that code's own reply.
  ghost predicate Honest(o: Oracle, h: seq<Event>, w: World, tr: seq<Event>) {
    forall i :: 0 <= i < |tr| ==>
      var r := o(tr[i].kind, tr[i].id, h + tr[..i], LastLeft(w, tr[..i]));
      tr[i].outcome == r.outcome && tr[i].left == r.left && tr[i].raised == r.raised
  }

  /// From `s` to `s'` exactly the calls `tr` were made; the counters rose by the
  /// bus's own share and by what the called code counted itself.
  ghost predicate Advances(o: Oracle, s: St, s': St, own: Counts, tr: seq<Event>) {
    s'.trace == s.trace + tr && s'.counts == Plus(Plus(s.counts, own), Raised(tr)) &&
    s'.world == LastLeft(s.world, tr) && Honest(o, s.trace, s.world, tr)
  }

  // ----- shapes of a stretch of calls ----------------------------------------------------------

  /// on_error once for each of `ids`, in order.
  predicate Announced(ids: seq<nat>, tr: seq<Event>) {
    |tr| == |ids| && forall i :: 0 <= i < |ids| ==> tr[i].kind == OnError && tr[i].id == ids[i]
  }

  /// Hook `k` once for each of `ids`, in order; a throw is followed by that
  /// middleware's own on_error and by nothing else.
  predicate Guarded(k: Kind, ids: seq<nat>, tr: seq<Event>) {
    if ids == [] then tr == []
    else
      tr != [] && tr[0].kind == k && tr[0].id == ids[0] &&
      if tr[0].outcome.Threw?
      then |tr| >= 2 && Announced([ids[0]], tr[1..2]) && Guarded(k, ids[1..], tr[2..])
      else Guarded(k, ids[1..], tr[1..])
  }

  /// Call `k` once for each of `ids`, in order; a throw is followed by on_error
  /// of every middleware registered at that moment and by nothing else.
  predicate Reported(k: Kind, ids: seq<nat>, tr: seq<Event>) {
    if ids == [] then tr == []
    else
      tr != [] && tr[0].kind == k && tr[0].id == ids[0] &&
      if tr[0].outcome.Threw?
      then
        var told := IdsOf(tr[0].left.middleware, MiddlewareId);
        |tr| >= 1 + |told| && Announced(told, tr[1..1 + |told|]) && Reported(k, ids[1..], tr[1 + |told|..])
      else Reported(k, ids[1..], tr[1..])
  }

  /// Whom hook `k` was called on, in order.
  function Made(k: Kind, tr: seq<Event>): seq<nat> {
    if tr == [] then [] else (if tr[0].kind == k then [tr[0].id] else []) + Made(k, tr[1..])
  }

  /// How many calls of `k` threw.
  function Thrown(k: Kind, tr: seq<Event>): nat {
    if tr == [] then 0
    else (if tr[0].kind == k && tr[0].outcome.Threw? then 1 else 0) + Thrown(k, tr[1..])
  }

  predicate IsVeto(e: Event) {
    e.kind.Before? && e.outcome.No?
  }

  /// The last call is a veto and the only one.
  predicate EndsInVeto(tr: seq<Event>) {
    tr != [] && IsVeto(tr[|tr| - 1]) && forall i :: 0 <= i < |tr| - 1 ==> !IsVeto(tr[i])
  }

  predicate NoVeto(tr: seq<Event>) {
    forall i :: 0 <= i < |tr| ==> !IsVeto(tr[i])
  }

  // ----- small facts -------------------------------------------------------------------------------

  lemma {:induction false} MadeConcat(k: Kind, a: seq<Event>, b: seq<Event>)
    ensures Made(k, a + b) == Made(k, a) + Made(k, b)
  {
    if a == [] {
      assert a + b == b;
    } else {
      MadeConcat(k, a[1..], b);
      assert (a + b)[0] == a[0] && (a + b)[1..] == a[1..] + b;
      var head := if a[0].kind == k then [a[0].id] else [];
      assert head + (Made(k, a[1..]) + Made(k, b)) == (head + Made(k, a[1..])) + Made(k, b);
    }
  }

  lemma {:induction false} ThrownConcat(k: Kind, a: seq<Event>, b: seq<Event>)
    ensures Thrown(k, a + b) == Thrown(k, a) + Thrown(k, b)
  {
    if a == [] {
      assert a + b == b;
    } else {
      assert (a + b)[1..] == a[1..] + b;
      ThrownConcat(k, a[1..], b);
    }
  }

  lemma {:induction false} AnnouncedMakes(k: Kind, ids: seq<nat>, tr: seq<Event>)
    requires Announced(ids, tr) && k != OnError
    ensures Made(k, tr) == [] && Thrown(k, tr) == 0
  {
    if tr != [] {
      AnnouncedMakes(k, ids[1..], tr[1..]);
    }
  }

  /// A guarded stretch calls its hook on exactly its ids and no other hook.
  lemma {:induction false} GuardedMakes(k: Kind, j: Kind, ids: seq<nat>, tr: seq<Event>)
    requires Guarded(k, ids, tr) && j != OnError && k != OnError
    ensures Made(j, tr) == if j == k then ids else []
    decreases |ids|
  {
    if ids != [] {
      assert ids == [ids[0]] + ids[1..];
      if tr[0].outcome.Threw? {
        assert tr[1..][1..] == tr[2..] && tr[1..2][0] == tr[1];
        GuardedMakes(k, j, ids[1..], tr[2..]);
        assert Made(j, tr[1..]) == Made(j, tr[2..]);
      } else {
        GuardedMakes(k, j, ids[1..], tr[1..]);
      }
    }
  }

  lemma {:induction false} ReportedMakes(k: Kind, j: Kind, ids: seq<nat>, tr: seq<Event>)
    requires Reported(k, ids, tr) && j != OnError && k != OnError
    ensures Made(j, tr) == if j == k then ids else []
    decreases |ids|
  {
    if ids != [] {
      assert ids == [ids[0]] + ids[1..];
      var n := 1;
      if tr[0].outcome.Threw? {
        var told := IdsOf(tr[0].left.middleware, MiddlewareId);
        n := 1 + |told|;
        AnnouncedMakes(j, told, tr[1..n]);
        assert tr[1..] == tr[1..n] + tr[n..];
        MadeConcat(j, tr[1..n], tr[n..]);
      }
      ReportedMakes(k, j, ids[1..], tr[n..]);
      hide Announced, Reported, IdsOf;
      assert Made(j, tr[1..]) == Made(j, tr[n..]);
    }
  }

  lemma PlusAssoc(a: Counts, b: Counts, c: Counts)
    ensures Plus(Plus(a, b), c) == Plus(a, Plus(b, c))
    ensures Plus(NOTHING, a) == a == Plus(a, NOTHING)
  {
  }

  lemma PlusFields(a: Counts, b: Counts)
    ensures var c := Plus(a, b);
            c.published == a.published + b.published && c.dropped == a.dropped + b.dropped &&
            c.invocations == a.invocations + b.invocations && c.errors == a.errors + b.errors
  {
  }

  lemma {:induction false} RaisedConcat(a: seq<Event>, b: seq<Event>)
    ensures Raised(a + b) == Plus(Raised(a), Raised(b))
  {
    if a == [] {
      assert a + b == b;
      PlusAssoc(Raised(b), NOTHING, NOTHING);
    } else {
      hide Plus;
      assert (a + b)[0] == a[0] && (a + b)[1..] == a[1..] + b;
      RaisedConcat(a[1..], b);
      PlusAssoc(a[0].raised, Raised(a[1..]), Raised(b));
    }
  }

  // ----- advancing -----------------------------------------------------------------------------------

  lemma JoinCounts(c: Counts, a: Counts, ra: Counts, b: Counts, rb: Counts)
    ensures Plus(Plus(Plus(Plus(c, a), ra), b), rb) == Plus(Plus(c, Plus(a, b)), Plus(ra, rb))
  {
  }

  lemma LastLeftConcat(w: World, ta: seq<Event>, tb: seq<Event>)
    ensures LastLeft(w, ta + tb) == LastLeft(LastLeft(w, ta), tb)
  {
    if tb == [] {
      assert ta + tb == ta;
    } else {
      assert (ta + tb)[|ta + tb| - 1] == tb[|tb| - 1];
    }
  }

  lemma HonestConcat(o: Oracle, h: seq<Event>, w: World, ta: seq<Event>, tb: seq<Event>)
    requires Honest(o, h, w, ta) && Honest(o, h + ta, LastLeft(w, ta), tb)
    ensures Honest(o, h, w, ta + tb)
  {
    var tr := ta + tb;
    forall i | 0 <= i < |tr|
      ensures var r := o(tr[i].kind, tr[i].id, h + tr[..i], LastLeft(w, tr[..i]));
              tr[i].outcome == r.outcome && tr[i].left == r.left && tr[i].raised == r.raised
    {
      if i < |ta| {
        assert tr[..i] == ta[..i];
      } else {
        var k := i - |ta|;
        assert tr[..i] == ta + tb[..k] && h + tr[..i] == h + ta + tb[..k];
        LastLeftConcat(w, ta, tb[..k]);
      }
    }
  }

  lemma Join(o: Oracle, s: St, s1: St, s2: St, a: Counts, b: Counts, ta: seq<Event>, tb: seq<Event>)
    requires Advances(o, s, s1, a, ta) && Advances(o, s1, s2, b, tb)
    ensures Advances(o, s, s2, Plus(a, b), ta + tb)
  {
    hide Raised, LastLeft, Plus, Honest;
    RaisedConcat(ta, tb);
    HonestConcat(o, s.trace, s.world, ta, tb);
    JoinCounts(s.counts, a, Raised(ta), b, Raised(tb));
    LastLeftConcat(s.world, ta, tb);
    assert s.trace + ta + tb == s.trace + (ta + tb);
  }

  lemma WorldLeft(o: Oracle, s: St, s': St, own: Counts, tr: seq<Event>)
    requires Advances(o, s, s', own, tr)
    ensures s'.world == LastLeft(s.world, tr)
  {
  }

  /// Stretches with no share of the bus's own on one side or on both.
  lemma JoinLeft(o: Oracle, s: St, s1: St, s2: St, a: Counts, ta: seq<Event>, tb: seq<Event>)
    requires Advances(o, s, s1, a, ta) && Advances(o, s1, s2, NOTHING, tb)
    ensures Advances(o, s, s2, a, ta + tb)
  {
    Join(o, s, s1, s2, a, NOTHING, ta, tb);
    PlusAssoc(a, NOTHING, NOTHING);
    hide Advances, Plus;
  }

  lemma JoinRight(o: Oracle, s: St, s1: St, s2: St, b: Counts, ta: seq<Event>, tb: seq<Event>)
    requires Advances(o, s, s1, NOTHING, ta) && Advances(o, s1, s2, b, tb)
    ensures Advances(o, s, s2, b, ta + tb)
  {
    Join(o, s, s1, s2, NOTHING, b, ta, tb);
    PlusAssoc(b, NOTHING, NOTHING);
    hide Advances, Plus;
  }

  /// Counting something before or after a stretch.
  lemma CountFirst(o: Oracle, s: St, s2: St, d: Counts, b: Counts, tr: seq<Event>)
    requires Advances(o, Count(s, d), s2, b, tr)
    ensures Advances(o, s, s2, Plus(d, b), tr)
  {
    Counting(o, s, d);
    Join(o, s, Count(s, d), s2, d, b, [], tr);
    assert [] + tr == tr;
    hide Advances, Plus, Count;
  }

  lemma CountLast(o: Oracle, s: St, s1: St, d: Counts, tr: seq<Event>)
    requires Advances(o, s, s1, NOTHING, tr)
    ensures Advances(o, s, Count(s1, d), d, tr)
  {
    Counting(o, s1, d);
    JoinRight(o, s, s1, Count(s1, d), d, tr, []);
    assert tr + [] == tr;
    hide Advances, Plus, Count;
  }

  lemma Still(o: Oracle, s: St)
    ensures Advances(o, s, s, NOTHING, [])
  {
  }

  lemma Counting(o: Oracle, s: St, d: Counts)
    ensures Advances(o, s, Count(s, d), d, [])
  {
  }

  lemma Calling(o: Oracle, k: Kind, id: nat, s: St)
    ensures Advances(o, s, Called(o, k, id, s), NOTHING, [EventOf(o, k, id, s)])
  {
    var tr := [EventOf(o, k, id, s)];
    assert Raised(tr[1..]) == NOTHING && s.trace + tr[..0] == s.trace;
  }

  function EventOf(o: Oracle, k: Kind, id: nat, st: St): Event {
    var r := Answer(o, k, id, st);
    Event(k, id, r.outcome, r.left, r.raised)
  }

  // ----- each loop has its shape ------------------------------------------------------------------------

  lemma AnnouncedStep(ids: seq<nat>, e: Event, rest: seq<Event>)
    requires e.kind == OnError && Announced(ids, rest)
    ensures Announced([e.id] + ids, [e] + rest)
  {
  }

  lemma AnnounceNone()
    ensures Announced([], [])
  {
  }

  lemma IdsCons<T>(xs: seq<T>, id: T -> nat)
    requires xs != []
    ensures IdsOf(xs, id) == [id(xs[0])] + IdsOf(xs[1..], id)
  {
  }

  lemma {:induction false} NotifyShape(o: Oracle, ms: seq<Middleware>, st: St) returns (tr: seq<Event>)
    ensures Advances(o, st, NotifyAll(o, ms, st), NOTHING, tr) && Announced(IdsOf(ms, MiddlewareId), tr)
    decreases |ms|
  {
    hide Announced, Advances, Plus;
    if ms == [] {
      tr := [];
      AnnounceNone();
      Still(o, st);
      assert IdsOf(ms, MiddlewareId) == [];
    } else {
      var e := EventOf(o, OnError, ms[0].id, st);
      var st1 := Called(o, OnError, ms[0].id, st);
      var rest := NotifyShape(o, ms[1..], st1);
      tr := [e] + rest;
      Calling(o, OnError, ms[0].id, st);
      JoinLeft(o, st, st1, NotifyAll(o, ms, st), NOTHING, [e], rest);
      IdsCons(ms, MiddlewareId);
      AnnouncedStep(IdsOf(ms[1..], MiddlewareId), e, rest);
    }
  }

  /// One guarded call with, if it threw, its own on_error.
  predicate GuardedCall(k: Kind, id: nat, front: seq<Event>) {
    front != [] && front[0].kind == k && front[0].id == id &&
    if front[0].outcome.Threw? then |front| == 2 && front[1].kind == OnError && front[1].id == id else |front| == 1
  }

  lemma GuardedStep(k: Kind, id: nat, ids: seq<nat>, front: seq<Event>, rest: seq<Event>)
    requires GuardedCall(k, id, front) && Guarded(k, ids, rest)
    ensures Guarded(k, [id] + ids, front + rest)
  {
    var tr := front + rest;
    assert ([id] + ids)[1..] == ids && tr[|front|..] == rest;
    if |front| == 2 { assert tr[1..2] == [front[1]]; }
  }

  lemma GuardedCallMade(k: Kind, id: nat, front: seq<Event>)
    requires GuardedCall(k, id, front) && k != OnError
    ensures Made(k, front) == [id]
  {
    if |front| == 2 { assert front[1..] == [front[1]] && Made(k, [front[1]]) == []; }
  }

  /// A hook call and, if it threw, on_error of the same middleware.
  lemma GuardedCallShape(o: Oracle, k: Kind, id: nat, st: St) returns (s': St, front: seq<Event>)
    ensures var st1 := Called(o, k, id, st);
            s' == if EventOf(o, k, id, st).outcome.Threw? then Called(o, OnError, id, st1) else st1
    ensures Advances(o, st, s', NOTHING, front) && GuardedCall(k, id, front) && front[0] == EventOf(o, k, id, st)
  {
    hide Advances, Called;
    s' := Called(o, k, id, st);
    front := [EventOf(o, k, id, st)];
    Calling(o, k, id, st);
    if front[0].outcome.Threw? {
      var st1 := s';
      var e := EventOf(o, OnError, id, st1);
      s' := Called(o, OnError, id, st1);
      Calling(o, OnError, id, st1);
      JoinLeft(o, st, st1, s', NOTHING, front, [e]);
      front := front + [e];
    }
  }

  lemma {:induction false} BeforeShape(o: Oracle, ms: seq<Middleware>, st: St) returns (tr: seq<Event>)
    ensures var (s', ok) := RunBefore(o, ms, st);
            Advances(o, st, s', if ok then NOTHING else DROPPED, tr) && BeforeTrace(IdsOf(ms, MiddlewareId), tr, ok)
    decreases |ms|
  {
    hide BeforeTrace, Advances, Plus, Called, GuardedCall, Count;
    if ms == [] {
      tr := [];
      BeforeNone();
      Still(o, st);
      assert IdsOf(ms, MiddlewareId) == [];
    } else {
      var m := ms[0].id;
      var e := EventOf(o, Before, m, st);
      IdsCons(ms, MiddlewareId);
      if e.outcome.No? {
        var st1 := Called(o, Before, m, st);
        tr := [e];
        BeforeVeto(e, IdsOf(ms[1..], MiddlewareId));
        Calling(o, Before, m, st);
        CountLast(o, st, st1, DROPPED, tr);
      } else {
        var st2, front := GuardedCallShape(o, Before, m, st);
        var rest := BeforeShape(o, ms[1..], st2);
        var (s', ok) := RunBefore(o, ms[1..], st2);
        tr := front + rest;
        JoinRight(o, st, st2, s', if ok then NOTHING else DROPPED, front, rest);
        BeforeStep(m, IdsOf(ms[1..], MiddlewareId), front, rest, ok);
      }
    }
  }

  /// The calls before_dispatch makes on a prefix of the snapshot: all of it, or
  /// up to the first veto.
  predicate BeforeTrace(all: seq<nat>, tr: seq<Event>, ok: bool) {
    var ids := Made(Before, tr);
    Guarded(Before, ids, tr) && ids <= all && if ok then ids == all && NoVeto(tr) else EndsInVeto(tr)
  }

  lemma BeforeNone()
    ensures BeforeTrace([], [], true)
  {
  }

  lemma BeforeVeto(e: Event, ids: seq<nat>)
    requires IsVeto(e)
    ensures BeforeTrace([e.id] + ids, [e], false)
  {
    assert [e][1..] == [] && [e.id][1..] == [] && Made(Before, [e]) == [e.id];
    assert [e.id] <= [e.id] + ids;
  }

  /// One passed middleware in front of a stretch of the right shape.
  lemma BeforeStep(m: nat, ids: seq<nat>, front: seq<Event>, rest: seq<Event>, ok: bool)
    requires GuardedCall(Before, m, front) && !IsVeto(front[0]) && BeforeTrace(ids, rest, ok)
    ensures BeforeTrace([m] + ids, front + rest, ok)
  {
    MadeConcat(Before, front, rest);
    GuardedCallMade(Before, m, front);
    GuardedStep(Before, m, Made(Before, rest), front, rest);
    hide Guarded, Made;
    var tr := front + rest;
    assert tr[|tr| - 1] == if rest == [] then front[|front| - 1] else rest[|rest| - 1];
    assert forall i :: 0 <= i < |tr| ==> tr[i] == if i < |front| then front[i] else rest[i - |front|];
  }

  lemma {:induction false} AfterShape(o: Oracle, ms: seq<Middleware>, st: St) returns (tr: seq<Event>)
    ensures Advances(o, st, RunAfter(o, ms, st), NOTHING, tr) && Guarded(After, Reverse(IdsOf(ms, MiddlewareId)), tr)
    decreases |ms|
  {
    hide Guarded, Advances, Plus, Called, GuardedCall;
    if ms == [] {
      tr := [];
      GuardNone(After);
      Still(o, st);
    } else {
      var n := |ms| - 1;
      var m := ms[n].id;
      var st2, front := GuardedCallShape(o, After, m, st);
      var rest := AfterShape(o, ms[..n], st2);
      tr := front + rest;
      JoinLeft(o, st, st2, RunAfter(o, ms, st), NOTHING, front, rest);
      assert Reverse(IdsOf(ms, MiddlewareId)) == [m] + Reverse(IdsOf(ms[..n], MiddlewareId));
      GuardedStep(After, m, Reverse(IdsOf(ms[..n], MiddlewareId)), front, rest);
    }
  }

  /// One call with, if it threw, on_error of all middleware.
  predicate ReportedCall(k: Kind, id: nat, front: seq<Event>) {
    front != [] && front[0].kind == k && front[0].id == id &&
    if front[0].outcome.Threw? then Announced(IdsOf(front[0].left.middleware, MiddlewareId), front[1..]) else |front| == 1
  }

  lemma ReportedStep(k: Kind, id: nat, ids: seq<nat>, front: seq<Event>, rest: seq<Event>)
    requires ReportedCall(k, id, front) && Reported(k, ids, rest)
    ensures Reported(k, [id] + ids, front + rest)
  {
    var tr := front + rest;
    assert ([id] + ids)[1..] == ids && tr[|front|..] == rest && tr[1..|front|] == front[1..];
  }

  /// A call, something counted if it threw, and then run_on_error().
  lemma ReportedCallShape(o: Oracle, k: Kind, id: nat, d: Counts, st: St) returns (s': St, front: seq<Event>)
    requires k != OnError
    ensures var st1 := Called(o, k, id, st);
            s' == if EventOf(o, k, id, st).outcome.Threw? then RunOnError(o, Count(st1, d)) else st1
    ensures ReportedCall(k, id, front) && Advances(o, st, s', if Thrown(k, front) == 1 then d else NOTHING, front)
    ensures Thrown(k, front) <= 1
  {
    hide Advances;
    var e := EventOf(o, k, id, st);
    var st1 := Called(o, k, id, st);
    front := [e];
    Calling(o, k, id, st);
    s' := st1;
    assert front[1..] == [];
    if e.outcome.Threw? {
      var told := NotifyShape(o, st1.world.middleware, Count(st1, d));
      s' := RunOnError(o, Count(st1, d));
      CountLast(o, st, st1, d, front);
      JoinLeft(o, st, Count(st1, d), s', d, front, told);
      AnnouncedMakes(k, IdsOf(st1.world.middleware, MiddlewareId), told);
      front := [e] + told;
      assert front[1..] == told;
    }
  }

  lemma {:induction false} RouteShape(o: Oracle, ts: seq<Transport>, localOnly: bool, remoteOnly: bool, st: St) returns (tr: seq<Event>)
    ensures Advances(o, st, Route(o, ts, localOnly, remoteOnly, st), NOTHING, tr) &&
            Reported(Dispatch, IdsOf(EligibleOf(ts, localOnly, remoteOnly), TransportId), tr)
    decreases |ts|
  {
    hide Reported, ReportedCall, RunOnError, Thrown, Advances;
    if ts == [] {
      tr := [];
      ReportNone(Dispatch);
      Still(o, st);
    } else if !Eligible(ts[0], localOnly, remoteOnly) {
      tr := RouteShape(o, ts[1..], localOnly, remoteOnly, st);
      assert EligibleOf(ts, localOnly, remoteOnly) == EligibleOf(ts[1..], localOnly, remoteOnly);
    } else {
      var id := ts[0].id;
      var st1, front := ReportedCallShape(o, Dispatch, id, NOTHING, st);
      CountNothing(Called(o, Dispatch, id, st));
      var rest := RouteShape(o, ts[1..], localOnly, remoteOnly, st1);
      tr := front + rest;
      JoinLeft(o, st, st1, Route(o, ts, localOnly, remoteOnly, st), NOTHING, front, rest);
      var eligible := EligibleOf(ts, localOnly, remoteOnly);
      assert eligible[1..] == EligibleOf(ts[1..], localOnly, remoteOnly);
      IdsCons(eligible, TransportId);
      ReportedStep(Dispatch, id, IdsOf(eligible[1..], TransportId), front, rest);
    }
  }

  lemma CountNothing(s: St)
    ensures Count(s, NOTHING) == s
  {
  }

  /// The bus's own share of a fan-out: every match and every throw.
  function FanCounts(matches: nat, throws: nat): Counts {
    Counts(0, 0, matches, throws)
  }

  lemma {:induction false} FanShape(o: Oracle, es: seq<Entry>, name: string, st: St) returns (tr: seq<Event>)
    ensures Advances(o, st, FanOut(o, es, name, st), FanCounts(|Heard(es, name)|, Thrown(Handle, tr)), tr) &&
            Reported(Handle, IdsOf(Heard(es, name), EntryId), tr)
    decreases |es|
  {
    hide Reported, Thrown, Hears, Advances, Handled, Plus;
    if es == [] {
      tr := [];
      ReportNone(Handle);
      Still(o, st);
    } else if !Hears(es[0], name) {
      tr := FanShape(o, es[1..], name, st);
      assert Heard(es, name) == Heard(es[1..], name);
    } else {
      var front := HandledShape(o, es[0].id, st);
      var st1 := Handled(o, es[0].id, Count(st, INVOCATION));
      var rest := FanShape(o, es[1..], name, st1);
      tr := front + rest;
      var heard := Heard(es, name);
      assert heard[1..] == Heard(es[1..], name);
      Join(o, st, st1, FanOut(o, es, name, st), FanCounts(1, Thrown(Handle, front)), FanCounts(|heard| - 1, Thrown(Handle, rest)), front, rest);
      PlusFields(FanCounts(1, Thrown(Handle, front)), FanCounts(|heard| - 1, Thrown(Handle, rest)));
      ThrownConcat(Handle, front, rest);
      IdsCons(heard, EntryId);
      ReportedStep(Handle, es[0].id, IdsOf(heard[1..], EntryId), front, rest);
    }
  }

  lemma HandledIs(o: Oracle, id: nat, st: St)
    ensures Handled(o, id, st) == if EventOf(o, Handle, id, st).outcome.Threw?
                                  then RunOnError(o, Count(Called(o, Handle, id, st), LISTENER_ERROR)) else Called(o, Handle, id, st)
  {
    hide RunOnError, Called;
  }

  /// The delivery to one listener.
  lemma HandledShape(o: Oracle, id: nat, st: St) returns (front: seq<Event>)
    ensures Advances(o, st, Handled(o, id, Count(st, INVOCATION)), FanCounts(1, Thrown(Handle, front)), front)
    ensures ReportedCall(Handle, id, front)
  {
    hide ReportedCall, Thrown, Advances, Count, Called, RunOnError, EventOf, Handled, Plus;
    var s';
    s', front := ReportedCallShape(o, Handle, id, LISTENER_ERROR, Count(st, INVOCATION));
    HandledIs(o, id, Count(st, INVOCATION));
    CountFirst(o, st, s', INVOCATION, if Thrown(Handle, front) == 1 then LISTENER_ERROR else NOTHING, front);
    PlusFields(INVOCATION, if Thrown(Handle, front) == 1 then LISTENER_ERROR else NOTHING);
  }

  lemma ReportNone(k: Kind)
    ensures Reported(k, [], []) && Made(k, []) == [] && Thrown(k, []) == 0
    ensures IdsOf<Transport>([], TransportId) == [] && IdsOf<Entry>([], EntryId) == []
  {
  }

  lemma GuardNone(k: Kind)
    ensures Guarded(k, [], []) && Made(k, []) == [] && NoVeto([]) && IdsOf<Middleware>([], MiddlewareId) == [] && Reverse([]) == []
  {
  }

  // ----- one publish ---------------------------------------------------------------------------------------

  /// The calls of the five stages of a publish, in order.
  datatype Calls = Calls(before: seq<Event>, told: seq<Event>, routed: seq<Event>, fanned: seq<Event>, after: seq<Event>) {
    function All(): seq<Event> {
      before + told + routed + fanned + after
    }
  }

  lemma BeforeStage(o: Oracle, name: string, st: St) returns (tr: seq<Event>)
    ensures var r := Publish(o, name, st);
            Advances(o, st, r.before, Plus(PUBLISHED, if r.vetoed then DROPPED else NOTHING), tr) &&
            BeforeTrace(IdsOf(r.sample.mws, MiddlewareId), tr, !r.vetoed)
  {
    hide RunBefore, BeforeTrace, Advances, Stage2, Stage3, Stage4, Stage5, Plus, Count;
    var p := SampleOf(st.world);
    var st0 := Count(st, PUBLISHED);
    if p.runMw {
      tr := BeforeShape(o, p.mws, st0);
      var (s', ok) := RunBefore(o, p.mws, st0);
      CountFirst(o, st, s', PUBLISHED, if ok then NOTHING else DROPPED, tr);
    } else {
      tr := [];
      BeforeNone();
      GuardNone(Before);
      Still(o, st0);
      CountFirst(o, st, st0, PUBLISHED, NOTHING, tr);
    }
  }

  lemma ToldStage(o: Oracle, name: string, st: St) returns (tr: seq<Event>)
    ensures var r := Publish(o, name, st);
            Advances(o, r.before, r.told, if r.conflict then DROPPED else NOTHING, tr) &&
            Announced(if r.conflict then IdsOf(r.before.world.middleware, MiddlewareId) else [], tr)
  {
    hide Stage1, Stage3, Stage4, Stage5, Announced, NotifyAll, Advances;
    var r := Publish(o, name, st);
    tr := [];
    AnnounceNone();
    Still(o, r.before);
    if r.conflict {
      tr := NotifyShape(o, r.before.world.middleware, r.before);
      var st1 := RunOnError(o, r.before);
      CountLast(o, r.before, st1, DROPPED, tr);
    }
  }

  lemma RoutedStage(o: Oracle, name: string, st: St) returns (tr: seq<Event>)
    ensures var r := Publish(o, name, st);
            Advances(o, r.told, r.routed, NOTHING, tr) &&
            Reported(Dispatch, if r.Proceeds() then IdsOf(EligibleOf(r.ts, r.sample.localOnly, r.sample.remoteOnly), TransportId) else [], tr)
  {
    hide Stage1, Stage2, Stage4, Stage5, Reported, Route, EligibleOf, Advances;
    var r := Publish(o, name, st);
    tr := [];
    ReportNone(Dispatch);
    Still(o, r.told);
    if r.Proceeds() {
      tr := RouteShape(o, r.ts, r.sample.localOnly, r.sample.remoteOnly, r.told);
    }
  }

  predicate FansInline(r: Stages) {
    r.Proceeds() && r.ts == [] && !r.sample.remoteOnly
  }

  lemma FannedStage(o: Oracle, name: string, st: St) returns (tr: seq<Event>)
    ensures var r := Publish(o, name, st);
            var heard := if FansInline(r) then Heard(r.routed.world.listeners, name) else [];
            Advances(o, r.routed, r.fanned, FanCounts(|heard|, Thrown(Handle, tr)), tr) && Reported(Handle, IdsOf(heard, EntryId), tr)
  {
    hide Stage1, Stage2, Stage3, Stage5, Reported, FanOut, Heard, Thrown, Advances;
    var r := Publish(o, name, st);
    tr := [];
    ReportNone(Handle);
    Still(o, r.routed);
    if FansInline(r) {
      tr := FanShape(o, r.routed.world.listeners, name, r.routed);
    }
  }

  lemma AfterStage(o: Oracle, name: string, st: St) returns (tr: seq<Event>)
    ensures var r := Publish(o, name, st);
            Advances(o, r.fanned, r.end, NOTHING, tr) && Guarded(After, Reverse(IdsOf(r.sample.mws, MiddlewareId)), tr)
  {
    hide Stage1, Stage2, Stage3, Stage4, Guarded, RunAfter, Advances;
    var r := Publish(o, name, st);
    tr := [];
    GuardNone(After);
    Still(o, r.fanned);
    if r.sample.runMw {
      tr := AfterShape(o, r.sample.mws, r.fanned);
    }
  }

  /// What one publish calls, for any behaviour of the code it calls:
  ///  - before_dispatch in priority order on exactly the prefix of the snapshot
  ///    that ends at the first veto; a throw is told to its own middleware only
  ///    and does not stop the loop; nothing when NoMiddleware was set on entry;
  ///  - on a LocalOnly and RemoteOnly conflict on_error of all middleware, even
  ///    under NoMiddleware, and nothing is routed;
  ///  - dispatch on exactly the transports registered once the hooks had run
  ///    that the flags *on entry* allow, each once and in order, even when
  ///    earlier ones throw; none after a veto or a conflict;
  ///  - the listeners themselves exactly when the publish proceeds, there is no
  ///    transport and the event is not remote only;
  ///  - after_dispatch over the whole snapshot in exactly the reverse order,
  ///    even after a veto or a conflict.
  ghost predicate PublishShape(r: Stages, name: string, w: World, c: Calls) {
    var flags := w.flags;
    var mws := IdsOf(if NoMiddleware in flags then [] else w.middleware, MiddlewareId);
    var conflict := LocalOnly in flags && RemoteOnly in flags;
    var ok := NoVeto(c.before);
    var ts := r.before.world.transports;
    BeforeTrace(mws, c.before, ok) &&
    Announced(if conflict then IdsOf(r.before.world.middleware, MiddlewareId) else [], c.told) &&
    Reported(Dispatch, if ok && !conflict then IdsOf(EligibleOf(ts, LocalOnly in flags, RemoteOnly in flags), TransportId) else [], c.routed) &&
    Reported(Handle, IdsOf(if ok && !conflict && ts == [] && RemoteOnly !in flags then Heard(r.routed.world.listeners, name) else [], EntryId), c.fanned) &&
    Guarded(After, Reverse(mws), c.after)
  }

  lemma VetoOrNot(all: seq<nat>, tr: seq<Event>, ok: bool)
    requires BeforeTrace(all, tr, ok)
    ensures ok <==> NoVeto(tr)
  {
  }

  /// The bus's own share of a publish: one event published, one dropped for a
  /// veto and one for a conflict, and of an inline fan-out every call of a
  /// listener and every throw.
  function OwnCounts(w: World, c: Calls): Counts {
    Counts(1,
           (if NoVeto(c.before) then 0 else 1) + (if LocalOnly in w.flags && RemoteOnly in w.flags then 1 else 0),
           |Made(Handle, c.fanned)|,
           Thrown(Handle, c.fanned))
  }

  /// The counters rise by this share and by what the called code counts itself:
  /// a transport's fan-out inside its dispatch, or a publish inside a hook. The
  /// transports that are routed to, the listeners of an inline fan-out and what
  /// the publish leaves are what the last call before left. And each call is made
  /// of the code it names, in the state of its moment.
  lemma PublishMakes(o: Oracle, name: string, st: St) returns (c: Calls)
    ensures var r := Publish(o, name, st);
            PublishShape(r, name, st.world, c) &&
            r.end.trace == st.trace + c.All() &&
            r.end.counts == Plus(Plus(st.counts, OwnCounts(st.world, c)), Raised(c.All())) &&
            r.before.world == LastLeft(st.world, c.before) &&
            r.routed.world == LastLeft(st.world, c.before + c.told + c.routed) &&
            r.end.world == LastLeft(st.world, c.All()) &&
            Honest(o, st.trace, st.world, c.All())
  {
    hide Stage1, Stage2, Stage3, Stage4, Stage5, BeforeTrace, NoVeto, Announced, Reported, Guarded, Made, Thrown, Heard, EligibleOf, IdsOf, Reverse, Raised, Plus, Honest;
    var r := Publish(o, name, st);
    var t1 := BeforeStage(o, name, st);
    var t2 := ToldStage(o, name, st);
    var t3 := RoutedStage(o, name, st);
    var t4 := FannedStage(o, name, st);
    var t5 := AfterStage(o, name, st);
    c := Calls(t1, t2, t3, t4, t5);
    VetoOrNot(IdsOf(r.sample.mws, MiddlewareId), t1, !r.vetoed);
    var heard := if FansInline(r) then Heard(r.routed.world.listeners, name) else [];
    HandledAll(heard, t4);
    FiveStages(o, st, r, Plus(PUBLISHED, if r.vetoed then DROPPED else NOTHING), if r.conflict then DROPPED else NOTHING,
               FanCounts(|heard|, Thrown(Handle, t4)), c);
    Shares(r.vetoed, r.conflict, |heard|, Thrown(Handle, t4));
  }

  lemma Shares(vetoed: bool, conflict: bool, matches: nat, throws: nat)
    ensures Plus(Plus(Plus(PUBLISHED, if vetoed then DROPPED else NOTHING), if conflict then DROPPED else NOTHING), FanCounts(matches, throws)) ==
            Counts(1, (if vetoed then 1 else 0) + (if conflict then 1 else 0), matches, throws)
  {
    hide Plus;
    var veto, clash := if vetoed then DROPPED else NOTHING, if conflict then DROPPED else NOTHING;
    PlusFields(PUBLISHED, veto);
    PlusFields(Plus(PUBLISHED, veto), clash);
    PlusFields(Plus(Plus(PUBLISHED, veto), clash), FanCounts(matches, throws));
  }

  lemma FiveStages(o: Oracle, st: St, r: Stages, own1: Counts, own2: Counts, own4: Counts, c: Calls)
    requires Advances(o, st, r.before, own1, c.before) && Advances(o, r.before, r.told, own2, c.told)
    requires Advances(o, r.told, r.routed, NOTHING, c.routed) && Advances(o, r.routed, r.fanned, own4, c.fanned)
    requires Advances(o, r.fanned, r.end, NOTHING, c.after)
    ensures Advances(o, st, r.end, Plus(Plus(own1, own2), own4), c.All())
    ensures r.routed.world == LastLeft(st.world, c.before + c.told + c.routed)
  {
    hide Plus, Advances;
    Join(o, st, r.before, r.told, own1, own2, c.before, c.told);
    JoinLeft(o, st, r.told, r.routed, Plus(own1, own2), c.before + c.told, c.routed);
    WorldLeft(o, st, r.routed, Plus(own1, own2), c.before + c.told + c.routed);
    Join(o, st, r.routed, r.fanned, Plus(own1, own2), own4, c.before + c.told + c.routed, c.fanned);
    JoinLeft(o, st, r.fanned, r.end, Plus(Plus(own1, own2), own4), c.before + c.told + c.routed + c.fanned, c.after);
  }

  lemma HandledAll(es: seq<Entry>, tr: seq<Event>)
    requires Reported(Handle, IdsOf(es, EntryId), tr)
    ensures |Made(Handle, tr)| == |es|
  {
    ReportedMakes(Handle, Handle, IdsOf(es, EntryId), tr);
  }

  lemma OneOfFive(k: Kind, c: Calls)
    ensures Made(k, c.All()) == Made(k, c.before) + Made(k, c.told) + Made(k, c.routed) + Made(k, c.fanned) + Made(k, c.after)
  {
    MadeConcat(k, c.before, c.told);
    MadeConcat(k, c.before + c.told, c.routed);
    MadeConcat(k, c.before + c.told + c.routed, c.fanned);
    MadeConcat(k, c.before + c.told + c.routed + c.fanned, c.after);
  }

  /// Over the whole publish: whom each hook is called on, in order.
  lemma PublishAtAGlance(r: Stages, name: string, w: World, c: Calls)
    requires PublishShape(r, name, w, c)
    ensures var flags := w.flags;
            var mws := IdsOf(if NoMiddleware in flags then [] else w.middleware, MiddlewareId);
            var go := NoVeto(c.before) && !(LocalOnly in flags && RemoteOnly in flags);
            var ts := r.before.world.transports;
            var begun := Made(Before, c.All());
            begun <= mws &&
            (if NoVeto(c.before) then begun == mws else begun != [] && EndsInVeto(c.before)) &&
            Made(Dispatch, c.All()) == (if go then IdsOf(EligibleOf(ts, LocalOnly in flags, RemoteOnly in flags), TransportId) else []) &&
            Made(Handle, c.All()) == (if go && ts == [] && RemoteOnly !in flags then IdsOf(Heard(r.routed.world.listeners, name), EntryId) else []) &&
            Made(After, c.All()) == Reverse(mws)
  {
    var flags := w.flags;
    var mws := IdsOf(if NoMiddleware in flags then [] else w.middleware, MiddlewareId);
    var conflict := LocalOnly in flags && RemoteOnly in flags;
    var go := NoVeto(c.before) && !conflict;
    var ts := r.before.world.transports;
    var told := if conflict then IdsOf(r.before.world.middleware, MiddlewareId) else [];
    var routed := if go then IdsOf(EligibleOf(ts, LocalOnly in flags, RemoteOnly in flags), TransportId) else [];
    var fanned := IdsOf(if go && ts == [] && RemoteOnly !in flags then Heard(r.routed.world.listeners, name) else [], EntryId);
    if EndsInVeto(c.before) { VetoMade(c.before); }
    hide Announced, Reported, Guarded, Heard, EligibleOf, IdsOf, Reverse, NoVeto, EndsInVeto, Made;
    Contributes(c, told, routed, fanned, Reverse(mws), Before);
    Contributes(c, told, routed, fanned, Reverse(mws), Dispatch);
    Contributes(c, told, routed, fanned, Reverse(mws), Handle);
    Contributes(c, told, routed, fanned, Reverse(mws), After);
    NoneHandled();
  }

  lemma NoneHandled()
    ensures IdsOf<Entry>([], EntryId) == [] && IdsOf<Transport>([], TransportId) == []
  {
  }

  /// A veto is a call of before_dispatch.
  lemma VetoMade(tr: seq<Event>)
    requires EndsInVeto(tr)
    ensures Made(Before, tr) != []
  {
    var n := |tr| - 1;
    assert tr == tr[..n] + [tr[n]];
    MadeConcat(Before, tr[..n], [tr[n]]);
    assert Made(Before, [tr[n]]) == [tr[n].id];
  }

  lemma Contributes(c: Calls, told: seq<nat>, routed: seq<nat>, fanned: seq<nat>, after: seq<nat>, k: Kind)
    requires Guarded(Before, Made(Before, c.before), c.before) && Announced(told, c.told)
    requires Reported(Dispatch, routed, c.routed) && Reported(Handle, fanned, c.fanned) && Guarded(After, after, c.after)
    requires k != OnError
    ensures Made(k, c.All()) == match k
                                case Before => Made(Before, c.before)
                                case Dispatch => routed
                                case Handle => fanned
                                case _ => after
  {
    hide Announced, Reported, Guarded, Made;
    OneOfFive(k, c);
    GuardedMakes(Before, k, Made(Before, c.before), c.before);
    AnnouncedMakes(k, told, c.told);
    ReportedMakes(Dispatch, k, routed, c.routed);
    ReportedMakes(Handle, k, fanned, c.fanned);
    GuardedMakes(After, k, after, c.after);
  }

  // ----- priority order --------------------------------------------------------------------------------------

  /// Routing keeps exactly the transports whose scope the flags allow ...
  lemma {:induction false} EligibleExactly(ts: seq<Transport>, localOnly: bool, remoteOnly: bool, t: Transport)
    ensures var ok := (localOnly ==> t.scope.Local?) && (remoteOnly ==> t.scope.Remote?);
            multiset(EligibleOf(ts, localOnly, remoteOnly))[t] == (if ok then multiset(ts)[t] else 0)
    decreases |ts|
  {
    if ts != [] {
      EligibleExactly(ts[1..], localOnly, remoteOnly, t);
      assert ts == [ts[0]] + ts[1..];
    }
  }

  lemma EligibleKept(ts: seq<Transport>, localOnly: bool, remoteOnly: bool, t: Transport)
    requires t in EligibleOf(ts, localOnly, remoteOnly)
    ensures t in ts
  {
    EligibleExactly(ts, localOnly, remoteOnly, t);
    assert t in multiset(EligibleOf(ts, localOnly, remoteOnly)) && t in multiset(ts);
  }

  /// ... and in priority order.
  lemma {:induction false} EligibleInOrder(ts: seq<Transport>, localOnly: bool, remoteOnly: bool)
    requires Prioritized.Sorted(ts, TransportRank)
    ensures Prioritized.Sorted(EligibleOf(ts, localOnly, remoteOnly), TransportRank)
    decreases |ts|
  {
    if ts != [] {
      EligibleInOrder(ts[1..], localOnly, remoteOnly);
      var rest := EligibleOf(ts[1..], localOnly, remoteOnly);
      forall i | 0 <= i < |rest| ensures ts[0].priority <= rest[i].priority {
        EligibleKept(ts[1..], localOnly, remoteOnly, rest[i]);
      }
    }
  }

  /// User code that leaves the containers in order when it finds them so: it
  /// changes them only by the bus's own registering and releasing functions.
  ghost predicate KeepsOrder(o: Oracle) {
    forall k: Kind, id: nat, tr: seq<Event>, w: World :: InOrder(w) ==> InOrder(o(k, id, tr, w).left)
  }

  lemma CalledKeeps(o: Oracle, k: Kind, id: nat, st: St)
    requires KeepsOrder(o) && InOrder(st.world)
    ensures InOrder(Called(o, k, id, st).world)
  {
    hide InOrder;
  }

  lemma {:induction false} NotifyKeeps(o: Oracle, ms: seq<Middleware>, st: St)
    requires KeepsOrder(o) && InOrder(st.world)
    ensures InOrder(NotifyAll(o, ms, st).world)
    decreases |ms|
  {
    hide InOrder, KeepsOrder;
    if ms != [] {
      CalledKeeps(o, OnError, ms[0].id, st);
      NotifyKeeps(o, ms[1..], Called(o, OnError, ms[0].id, st));
    }
  }

  lemma {:induction false} BeforeKeeps(o: Oracle, ms: seq<Middleware>, st: St)
    requires KeepsOrder(o) && InOrder(st.world)
    ensures InOrder(RunBefore(o, ms, st).0.world)
    decreases |ms|
  {
    hide InOrder, KeepsOrder;
    if ms != [] {
      var m := ms[0].id;
      var st1 := Called(o, Before, m, st);
      CalledKeeps(o, Before, m, st);
      match Answer(o, Before, m, st).outcome
      case No =>
      case Yes => BeforeKeeps(o, ms[1..], st1);
      case Threw =>
        CalledKeeps(o, OnError, m, st1);
        BeforeKeeps(o, ms[1..], Called(o, OnError, m, st1));
    }
  }

  lemma {:induction false} RouteKeeps(o: Oracle, ts: seq<Transport>, localOnly: bool, remoteOnly: bool, st: St)
    requires KeepsOrder(o) && InOrder(st.world)
    ensures InOrder(Route(o, ts, localOnly, remoteOnly, st).world)
    decreases |ts|
  {
    hide InOrder, KeepsOrder;
    if ts != [] {
      var st1 := Called(o, Dispatch, ts[0].id, st);
      CalledKeeps(o, Dispatch, ts[0].id, st);
      NotifyKeeps(o, st1.world.middleware, st1);
      if !Eligible(ts[0], localOnly, remoteOnly) {
        RouteKeeps(o, ts[1..], localOnly, remoteOnly, st);
      } else {
        RouteKeeps(o, ts[1..], localOnly, remoteOnly,
                   if Answer(o, Dispatch, ts[0].id, st).outcome.Threw? then RunOnError(o, st1) else st1);
      }
    }
  }

  /// From containers filled by the registering functions, which keep them in
  /// order, a publish calls middleware, transports and listeners in priority
  /// order, equal priorities as they were registered.
  lemma PublishInOrder(o: Oracle, name: string, st: St)
    requires KeepsOrder(o) && InOrder(st.world)
    ensures var r := Publish(o, name, st);
            Prioritized.Kept(r.sample.mws, MiddlewareRank) &&
            Prioritized.Sorted(EligibleOf(r.ts, r.sample.localOnly, r.sample.remoteOnly), TransportRank) &&
            Prioritized.Sorted(Heard(r.routed.world.listeners, name), Rank) &&
            Distinct(Heard(r.routed.world.listeners, name))
  {
    var r := Publish(o, name, st);
    OrderOnTheWay(o, name, st);
    EligibleInOrder(r.ts, r.sample.localOnly, r.sample.remoteOnly);
    HeardInOrder(r.routed.world.listeners, name);
    hide Publish, EligibleOf, Heard, KeepsOrder;
  }

  lemma OrderOnTheWay(o: Oracle, name: string, st: St)
    requires KeepsOrder(o) && InOrder(st.world)
    ensures var r := Publish(o, name, st);
            InOrder(r.before.world) && InOrder(r.routed.world) && r.ts == r.before.world.transports &&
            (r.sample.mws == [] || r.sample.mws == st.world.middleware)
  {
    hide InOrder, KeepsOrder, RunBefore, Route, NotifyAll, Stage4, Stage5;
    var r := Publish(o, name, st);
    BeforeKeeps(o, r.sample.mws, Count(st, PUBLISHED));
    NotifyKeeps(o, r.before.world.middleware, r.before);
    RouteKeeps(o, r.ts, r.sample.localOnly, r.sample.remoteOnly, r.told);
  }
}
