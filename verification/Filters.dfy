/// Filtered transports, nested to any depth: which predicates are asked, in
/// which order, and when an event gets through.
///
/// A predicate is user code. It is answered by an oracle that sees the whole
/// history and may say yes, say no or throw.

module Filters {
  import opened Options

  datatype Answer = Yes | No | Threw

  datatype Event =
    | Asked(predicateId: nat, answer: Answer)
    | Dispatched           // the innermost transport's dispatch
    | Delivered            // the sink given by whoever attached

  type Oracle = (nat, seq<Event>) -> Answer

  /// A transport: any plain one, or a filter around another. An empty
  /// `std::function` is `None`.
  datatype Transport = Plain | Filtered(outbound: Option<nat>, inbound: Option<nat>, inner: Transport)

  /// An inbound sink: empty, the bus's delivery, or the closure a filter makes.
  datatype Sink = NoSink | BusDelivery | Gated(gate: Option<nat>, next: Sink)

  /// attach_with_sink(): the sink the innermost transport ends up with.
  function Installed(t: Transport, sink: Sink): Sink {
    match t
    case Plain => sink
    case Filtered(_, p, inner) => Installed(inner, Gated(p, sink))
  }

  /// attach().
  function AttachedSink(t: Transport): Sink {
    match t
    case Plain => BusDelivery
    case Filtered(_, p, inner) => Installed(inner, Gated(p, BusDelivery))
  }

  /// dispatch().
  function Outbound(o: Oracle, t: Transport, tr: seq<Event>): seq<Event> {
    match t
    case Plain => tr + [Dispatched]
    case Filtered(None, _, inner) => Outbound(o, inner, tr)
    case Filtered(Some(p), _, inner) =>
      var tr1 := tr + [Asked(p, o(p, tr))];
      if o(p, tr).Yes? then Outbound(o, inner, tr1) else tr1
  }

  /// An event arriving at a sink.
  function Inbound(o: Oracle, sink: Sink, tr: seq<Event>): seq<Event> {
    match sink
    case NoSink => tr
    case BusDelivery => tr + [Delivered]
    case Gated(None, next) => Inbound(o, next, tr)
    case Gated(Some(p), next) =>
      var tr1 := tr + [Asked(p, o(p, tr))];
      if o(p, tr).Yes? then Inbound(o, next, tr1) else tr1
  }

  // ----- what should happen ------------------------------------------------------------------

  function Listed(p: Option<nat>): seq<nat> {
    match p case None => [] case Some(id) => [id]
  }

  /// The outbound predicates that are there, outermost first.
  function OutboundIds(t: Transport): seq<nat> {
    match t
    case Plain => []
    case Filtered(p, _, inner) => Listed(p) + OutboundIds(inner)
  }

  /// The inbound predicates that are there, innermost first.
  function InboundIds(t: Transport): seq<nat> {
    match t
    case Plain => []
    case Filtered(_, p, inner) => InboundIds(inner) + Listed(p)
  }

  /// After history `h` the first `n` events of `tr` ask the first `n` of `ids`.
  predicate AskedInTurn(o: Oracle, h: seq<Event>, ids: seq<nat>, tr: seq<Event>, n: nat) {
    n <= |ids| && n <= |tr| && forall i :: 0 <= i < n ==> tr[i] == Asked(ids[i], o(ids[i], h + tr[..i]))
  }

  predicate AllYes(tr: seq<Event>, n: nat) {
    n <= |tr| && forall i :: 0 <= i < n ==> tr[i].Asked? && tr[i].answer.Yes?
  }

  /// All of `ids` are asked, in order, all say yes, and `goal` follows.
  predicate Reached(o: Oracle, h: seq<Event>, ids: seq<nat>, goal: seq<Event>, tr: seq<Event>) {
    AskedInTurn(o, h, ids, tr, |ids|) && AllYes(tr, |ids|) && tr[|ids|..] == goal
  }

  /// They are asked in order up to the first that does not say yes, and nothing
  /// follows.
  predicate Stopped(o: Oracle, h: seq<Event>, ids: seq<nat>, tr: seq<Event>) {
    0 < |tr| <= |ids| && AskedInTurn(o, h, ids, tr, |tr|) && AllYes(tr, |tr| - 1) && !tr[|tr| - 1].answer.Yes?
  }

  predicate PassesThrough(o: Oracle, h: seq<Event>, ids: seq<nat>, goal: seq<Event>, tr: seq<Event>) {
    Reached(o, h, ids, goal, tr) || Stopped(o, h, ids, tr)
  }

  lemma PassesNone(o: Oracle, h: seq<Event>, goal: seq<Event>)
    ensures PassesThrough(o, h, [], goal, goal)
  {
  }

  lemma PassesDenied(o: Oracle, h: seq<Event>, p: nat, ids: seq<nat>, goal: seq<Event>)
    requires !o(p, h).Yes?
    ensures PassesThrough(o, h, [p] + ids, goal, [Asked(p, o(p, h))])
  {
    var tr := [Asked(p, o(p, h))];
    assert h + tr[..0] == h;
    assert Stopped(o, h, [p] + ids, tr);
  }

  lemma PassesAllowed(o: Oracle, h: seq<Event>, p: nat, ids: seq<nat>, goal: seq<Event>, rest: seq<Event>)
    requires o(p, h).Yes? && PassesThrough(o, h + [Asked(p, Yes)], ids, goal, rest)
    ensures PassesThrough(o, h, [p] + ids, goal, [Asked(p, Yes)] + rest)
  {
    var tr := [Asked(p, Yes)] + rest;
    var n := if Reached(o, h + [Asked(p, Yes)], ids, goal, rest) then |ids| else |rest|;
    AskedOneMore(o, h, p, ids, rest, n);
    assert forall i :: 0 < i < |tr| ==> tr[i] == rest[i - 1];
    assert |rest| >= |ids| ==> tr[|ids| + 1..] == rest[|ids|..];
  }

  lemma AskedOneMore(o: Oracle, h: seq<Event>, p: nat, ids: seq<nat>, rest: seq<Event>, n: nat)
    requires o(p, h).Yes? && AskedInTurn(o, h + [Asked(p, Yes)], ids, rest, n)
    ensures AskedInTurn(o, h, [p] + ids, [Asked(p, Yes)] + rest, n + 1)
  {
    var tr := [Asked(p, Yes)] + rest;
    forall i | 0 <= i < n + 1 ensures tr[i] == Asked(([p] + ids)[i], o(([p] + ids)[i], h + tr[..i])) {
      if i == 0 {
        assert h + tr[..0] == h;
      } else {
        assert h + tr[..i] == h + [Asked(p, Yes)] + rest[..i - 1];
        assert tr[i] == rest[i - 1];
      }
    }
  }

  // ----- results -------------------------------------------------------------------------------

  /// An outbound event asks the outbound predicates outermost first, stops at
  /// the first that denies or throws, and reaches the innermost transport
  /// exactly when none did.
  lemma {:induction false} OutboundPasses(o: Oracle, t: Transport, tr: seq<Event>) returns (more: seq<Event>)
    ensures Outbound(o, t, tr) == tr + more && PassesThrough(o, tr, OutboundIds(t), [Dispatched], more)
    decreases t
  {
    hide PassesThrough;
    match t
    case Plain =>
      more := [Dispatched];
      PassesNone(o, tr, more);
    case Filtered(None, _, inner) =>
      more := OutboundPasses(o, inner, tr);
      assert OutboundIds(t) == OutboundIds(inner);
    case Filtered(Some(p), _, inner) =>
      var a := o(p, tr);
      if a.Yes? {
        var rest := OutboundPasses(o, inner, tr + [Asked(p, a)]);
        more := [Asked(p, a)] + rest;
        assert tr + [Asked(p, a)] + rest == tr + more;
        PassesAllowed(o, tr, p, OutboundIds(inner), [Dispatched], rest);
      } else {
        more := [Asked(p, a)];
        PassesDenied(o, tr, p, OutboundIds(inner), [Dispatched]);
      }
  }

  /// The gates of a sink, in the order an event meets them, and its end.
  function Gates(sink: Sink): seq<nat> {
    match sink
    case Gated(p, next) => Listed(p) + Gates(next)
    case _ => []
  }

  function End(sink: Sink): seq<Event> {
    match sink
    case NoSink => []
    case BusDelivery => [Delivered]
    case Gated(_, next) => End(next)
  }

  lemma {:induction false} SinkPasses(o: Oracle, sink: Sink, tr: seq<Event>) returns (more: seq<Event>)
    ensures Inbound(o, sink, tr) == tr + more && PassesThrough(o, tr, Gates(sink), End(sink), more)
    decreases sink
  {
    hide PassesThrough;
    match sink
    case NoSink =>
      more := [];
      PassesNone(o, tr, []);
    case BusDelivery =>
      more := [Delivered];
      PassesNone(o, tr, more);
    case Gated(None, next) =>
      more := SinkPasses(o, next, tr);
      assert Gates(sink) == Gates(next);
    case Gated(Some(p), next) =>
      var a := o(p, tr);
      if a.Yes? {
        var rest := SinkPasses(o, next, tr + [Asked(p, a)]);
        more := [Asked(p, a)] + rest;
        assert tr + [Asked(p, a)] + rest == tr + more;
        PassesAllowed(o, tr, p, Gates(next), End(next), rest);
      } else {
        more := [Asked(p, a)];
        PassesDenied(o, tr, p, Gates(next), End(next));
      }
  }

  /// Attaching turns the nesting inside out.
  lemma {:induction false} InstalledGates(t: Transport, sink: Sink)
    ensures Gates(Installed(t, sink)) == InboundIds(t) + Gates(sink) && End(Installed(t, sink)) == End(sink)
    decreases t
  {
    hide Listed;
    match t
    case Plain =>
      assert [] + Gates(sink) == Gates(sink);
    case Filtered(_, p, inner) =>
      InstalledGates(inner, Gated(p, sink));
      assert Gates(Gated(p, sink)) == Listed(p) + Gates(sink);
      assert InboundIds(inner) + (Listed(p) + Gates(sink)) == InboundIds(t) + Gates(sink);
  }

  /// An inbound event asks the inbound predicates innermost first, stops at the
  /// first that denies or throws, and is delivered by the bus exactly when none
  /// did. Another sink in the bus's place changes only the end.
  lemma InboundPasses(o: Oracle, t: Transport, tr: seq<Event>) returns (more: seq<Event>)
    ensures Inbound(o, AttachedSink(t), tr) == tr + more && PassesThrough(o, tr, InboundIds(t), [Delivered], more)
  {
    InstalledGates(t, BusDelivery);
    assert AttachedSink(t) == Installed(t, BusDelivery);
    assert InboundIds(t) + [] == InboundIds(t);
    more := SinkPasses(o, AttachedSink(t), tr);
  }

  lemma SinkInPlaceOfBus(o: Oracle, t: Transport, sink: Sink, tr: seq<Event>) returns (more: seq<Event>)
    ensures Inbound(o, Installed(t, sink), tr) == tr + more && PassesThrough(o, tr, InboundIds(t) + Gates(sink), End(sink), more)
  {
    InstalledGates(t, sink);
    more := SinkPasses(o, Installed(t, sink), tr);
  }

  /// With predicates that answer by the event alone: an event gets through if
  /// and only if all of them allow it.
  lemma ThroughIffAllAllow(o: Oracle, h: seq<Event>, ids: seq<nat>, goal: seq<Event>, tr: seq<Event>, says: nat -> Answer)
    requires PassesThrough(o, h, ids, goal, tr) && forall p: nat, k: seq<Event> :: o(p, k) == says(p)
    ensures Reached(o, h, ids, goal, tr) <==> forall i :: 0 <= i < |ids| ==> says(ids[i]).Yes?
  {
    if Reached(o, h, ids, goal, tr) {
      forall i | 0 <= i < |ids| ensures says(ids[i]).Yes? {
        assert tr[i].answer == o(ids[i], h + tr[..i]);
      }
    } else {
      var n := |tr| - 1;
      assert tr[n] == Asked(ids[n], o(ids[n], h + tr[..n]));
    }
  }

  // ----- the objects' own shape ---------------------------------------------------------------------

  class Wire {
    const o: Oracle
    var trace: seq<Event>

    constructor (o: Oracle)
      ensures this.o == o && trace == []
    {
      this.o := o;
      trace := [];
    }

    method Ask(p: nat) returns (a: Answer)
      modifies this
      ensures a == o(p, old(trace)) && trace == old(trace) + [Asked(p, a)]
    {
      a := o(p, trace);
      trace := trace + [Asked(p, a)];
    }

    /// FilteredTransport::dispatch(), down to the plain transport.
    method Dispatch(t: Transport)
      modifies this
      ensures trace == Outbound(o, t, old(trace))
      decreases t
    {
      match t {
        case Plain => trace := trace + [Dispatched];
        case Filtered(outbound, _, inner) =>
          if outbound.Some? {
            var allow := false;
            var a := Ask(outbound.value);
            if !a.Threw? {
              allow := a.Yes?;
            }
            if !allow {
              return;
            }
          }
          Dispatch(inner);
      }
    }

    /// The closures attach() and attach_with_sink() install.
    method Receive(sink: Sink)
      modifies this
      ensures trace == Inbound(o, sink, old(trace))
      decreases sink
    {
      match sink {
        case NoSink =>
        case BusDelivery => trace := trace + [Delivered];
        case Gated(gate, next) =>
          if gate.None? {
            Receive(next);
            return;
          }
          var allow := false;
          var a := Ask(gate.value);
          if !a.Threw? {
            allow := a.Yes?;
          }
          if allow {
            Receive(next);
          }
      }
    }
  }
}
