/// The bus: the publish pipeline, routing and listener fan-out.
///
/// Middleware hooks, transports and listeners are user code. Each call of one
/// is answered by an oracle that sees the whole history and may answer true,
/// answer false or throw, and may also leave behind any other set of flags,
/// listeners, middleware and transports, and have raised the bus's counters:
/// hooks may mutate the envelope, re-enter the bus to register, unregister or
/// publish, and a transport may run a fan-out inside its dispatch.

module Bus {
  import opened Listeners
  import Prioritized

  datatype Flag = Direct | Durable | Persistent | NoMiddleware | RequireAck | Broadcast | LocalOnly | RemoteOnly | Custom(name: string)

  datatype Scope = Local | Remote

  datatype Transport = Transport(id: nat, scope: Scope, priority: int)

  datatype Middleware = Middleware(id: nat, priority: int)

  /// What user code may change behind the bus's back during a publish.
  datatype World = World(flags: set<Flag>, listeners: seq<Entry>, middleware: seq<Middleware>, transports: seq<Transport>)

  datatype Kind = Before | After | OnError | Dispatch | Handle

  datatype Outcome = Yes | No | Threw

  /// The bus's counters: events published and dropped, listener invocations and
  /// listener errors.
  datatype Counts = Counts(published: int, dropped: int, invocations: int, errors: int)

  const NOTHING := Counts(0, 0, 0, 0)
  const PUBLISHED := Counts(1, 0, 0, 0)
  const DROPPED := Counts(0, 1, 0, 0)
  const INVOCATION := Counts(0, 0, 1, 0)
  const LISTENER_ERROR := Counts(0, 0, 0, 1)

  function Plus(a: Counts, b: Counts): Counts {
    Counts(a.published + b.published, a.dropped + b.dropped, a.invocations + b.invocations, a.errors + b.errors)
  }

  /// One call of user code: which hook, of whom, how it ended, what it left and
  /// what it counted while it ran.
  datatype Event = Event(kind: Kind, id: nat, outcome: Outcome, left: World, raised: Counts)

  datatype Reply = Reply(outcome: Outcome, left: World, raised: Counts)

  function MiddlewareRank(m: Middleware): int {
    m.priority
  }

  function TransportRank(t: Transport): int {
    t.priority
  }

  /// Each container in priority order and without repetition.
  ghost predicate InOrder(w: World) {
    Prioritized.Sorted(w.listeners, Rank) && Distinct(w.listeners) &&
    Prioritized.Kept(w.middleware, MiddlewareRank) && Prioritized.Kept(w.transports, TransportRank)
  }

  type Oracle = (Kind, nat, seq<Event>, World) -> Reply

  /// The world, the calls made so far, and the counters the bus keeps.
  datatype St = St(world: World, trace: seq<Event>, counts: Counts)

  function Answer(o: Oracle, k: Kind, id: nat, st: St): Reply {
    o(k, id, st.trace, st.world)
  }

  /// Call hook `k` of `id`.
  function Called(o: Oracle, k: Kind, id: nat, st: St): St {
    var r := Answer(o, k, id, st);
    St(r.left, st.trace + [Event(k, id, r.outcome, r.left, r.raised)], Plus(st.counts, r.raised))
  }

  /// Count something.
  function Count(st: St, d: Counts): St {
    st.(counts := Plus(st.counts, d))
  }

  // ----- the pipeline as functions -----------------------------------------------------------

  /// on_error of each of `ms`, whatever they do.
  function NotifyAll(o: Oracle, ms: seq<Middleware>, st: St): St {
    if ms == [] then st else NotifyAll(o, ms[1..], Called(o, OnError, ms[0].id, st))
  }

  /// run_on_error(): the middleware registered now.
  function RunOnError(o: Oracle, st: St): St {
    NotifyAll(o, st.world.middleware, st)
  }

  /// before_dispatch in order until a veto; a throw is told to its own middleware.
  function RunBefore(o: Oracle, ms: seq<Middleware>, st: St): (St, bool) {
    if ms == [] then (st, true)
    else
      var m := ms[0].id;
      var st1 := Called(o, Before, m, st);
      match Answer(o, Before, m, st).outcome
      case No => (Count(st1, DROPPED), false)
      case Yes => RunBefore(o, ms[1..], st1)
      case Threw => RunBefore(o, ms[1..], Called(o, OnError, m, st1))
  }

  /// after_dispatch from the last to the first.
  function RunAfter(o: Oracle, ms: seq<Middleware>, st: St): St {
    if ms == [] then st
    else
      var n := |ms| - 1;
      var m := ms[n].id;
      var st1 := Called(o, After, m, st);
      RunAfter(o, ms[..n], if Answer(o, After, m, st).outcome.Threw? then Called(o, OnError, m, st1) else st1)
  }

  predicate Eligible(t: Transport, localOnly: bool, remoteOnly: bool) {
    !(localOnly && t.scope != Local) && !(remoteOnly && t.scope != Remote)
  }

  /// Dispatch to every eligible transport; a throw goes to all middleware.
  function Route(o: Oracle, ts: seq<Transport>, localOnly: bool, remoteOnly: bool, st: St): St {
    if ts == [] then st
    else if !Eligible(ts[0], localOnly, remoteOnly) then Route(o, ts[1..], localOnly, remoteOnly, st)
    else
      var st1 := Called(o, Dispatch, ts[0].id, st);
      Route(o, ts[1..], localOnly, remoteOnly,
            if Answer(o, Dispatch, ts[0].id, st).outcome.Threw? then RunOnError(o, st1) else st1)
  }

  /// The call of one listener; a throw is counted and goes to all middleware.
  function Handled(o: Oracle, id: nat, st: St): St {
    var st1 := Called(o, Handle, id, st);
    if Answer(o, Handle, id, st).outcome.Threw? then RunOnError(o, Count(st1, LISTENER_ERROR)) else st1
  }

  /// Call every entry of the snapshot that hears the name.
  function FanOut(o: Oracle, es: seq<Entry>, name: string, st: St): St {
    if es == [] then st
    else if !Hears(es[0], name) then FanOut(o, es[1..], name, st)
    else
      FanOut(o, es[1..], name, Handled(o, es[0].id, Count(st, INVOCATION)))
  }

  /// deliver_to_listeners().
  function Deliver(o: Oracle, name: string, st: St): St {
    FanOut(o, st.world.listeners, name, st)
  }

  // The stages of one publish, each from the state before it.

  /// What is sampled from the envelope and the bus before any hook runs.
  datatype Sample = Sample(localOnly: bool, remoteOnly: bool, runMw: bool, mws: seq<Middleware>)

  function SampleOf(w: World): Sample {
    var run := NoMiddleware !in w.flags;
    Sample(LocalOnly in w.flags, RemoteOnly in w.flags, run, if run then w.middleware else [])
  }

  function Stage1(o: Oracle, p: Sample, st: St): (St, bool) {
    var st0 := Count(st, PUBLISHED);
    if p.runMw then RunBefore(o, p.mws, st0) else (st0, true)
  }

  function Stage2(o: Oracle, p: Sample, st: St): St {
    if p.localOnly && p.remoteOnly then
      Count(RunOnError(o, st), DROPPED)
    else st
  }

  function Stage3(o: Oracle, p: Sample, proceed: bool, ts: seq<Transport>, st: St): St {
    if proceed then Route(o, ts, p.localOnly, p.remoteOnly, st) else st
  }

  function Stage4(o: Oracle, p: Sample, proceed: bool, ts: seq<Transport>, name: string, st: St): St {
    if proceed && ts == [] && !p.remoteOnly then Deliver(o, name, st) else st
  }

  function Stage5(o: Oracle, p: Sample, st: St): St {
    if p.runMw then RunAfter(o, p.mws, st) else st
  }

  datatype Stages = Stages(sample: Sample, before: St, vetoed: bool, ts: seq<Transport>, conflict: bool, told: St, routed: St, fanned: St, end: St) {
    predicate Proceeds() {
      !vetoed && !conflict
    }
  }

  function Publish(o: Oracle, name: string, st: St): Stages {
    var p := SampleOf(st.world);
    var (before, ok) := Stage1(o, p, st);
    var ts := before.world.transports;
    var conflict := p.localOnly && p.remoteOnly;
    var told := Stage2(o, p, before);
    var routed := Stage3(o, p, ok && !conflict, ts, told);
    var fanned := Stage4(o, p, ok && !conflict, ts, name, routed);
    Stages(p, before, !ok, ts, conflict, told, routed, fanned, Stage5(o, p, fanned))
  }

  // ----- the bus itself -------------------------------------------------------------------------

  class Envelope {
    const name: string
    var flags: set<Flag>

    constructor (name: string, flags: set<Flag>)
      ensures this.name == name && this.flags == flags
    {
      this.name := name;
      this.flags := flags;
    }
  }

  class EventBus {
    var listeners: seq<Entry>
    var middleware: seq<Middleware>
    var transports: seq<Transport>
    var counts: Counts
    var trace: seq<Event>    // every call of user code so far
    const o: Oracle

    constructor (o: Oracle)
      ensures listeners == [] && middleware == [] && transports == [] && trace == [] && this.o == o
      ensures counts == NOTHING
    {
      this.o := o;
      listeners, middleware, transports, trace, counts := [], [], [], [], NOTHING;
    }

    function View(env: Envelope): St
      reads this, env
    {
      St(World(env.flags, listeners, middleware, transports), trace, counts)
    }

    /// use_middleware(): behind those of the same or a lower priority number.
    method UseMiddleware(m: Middleware)
      modifies this`middleware
      ensures middleware == Prioritized.Insert(old(middleware), m, MiddlewareRank)
      ensures old(Prioritized.Kept(middleware, MiddlewareRank)) ==> Prioritized.Kept(middleware, MiddlewareRank) && Prioritized.Inserted(old(middleware), middleware, m, MiddlewareRank)
    {
      ghost var was := middleware;
      middleware := Prioritized.Insert(middleware, m, MiddlewareRank);
      if Prioritized.Kept(was, MiddlewareRank) {
        Prioritized.InsertKept(was, m, MiddlewareRank);
        Prioritized.InsertSplits(was, m, MiddlewareRank);
      }
    }

    /// use_transport(), once the transport has attached itself.
    method UseTransport(t: Transport)
      modifies this`transports
      ensures transports == Prioritized.Insert(old(transports), t, TransportRank)
      ensures old(Prioritized.Kept(transports, TransportRank)) ==> Prioritized.Kept(transports, TransportRank) && Prioritized.Inserted(old(transports), transports, t, TransportRank)
    {
      ghost var was := transports;
      transports := Prioritized.Insert(transports, t, TransportRank);
      if Prioritized.Kept(was, TransportRank) {
        Prioritized.InsertKept(was, t, TransportRank);
        Prioritized.InsertSplits(was, t, TransportRank);
      }
    }

    /// Call user code: it may answer anything, change anything and count anything.
    method Call(k: Kind, id: nat, env: Envelope) returns (outcome: Outcome)
      modifies this, env
      ensures View(env) == Called(o, k, id, old(View(env)))
      ensures outcome == Answer(o, k, id, old(View(env))).outcome
    {
      var reply := o(k, id, trace, World(env.flags, listeners, middleware, transports));
      env.flags := reply.left.flags;
      listeners := reply.left.listeners;
      middleware := reply.left.middleware;
      transports := reply.left.transports;
      counts := Plus(counts, reply.raised);
      trace := trace + [Event(k, id, reply.outcome, reply.left, reply.raised)];
      outcome := reply.outcome;
    }

    method TellMiddleware(env: Envelope)
      modifies this, env
      ensures View(env) == RunOnError(o, old(View(env)))
    {
      var snap := middleware;
      ghost var end := RunOnError(o, View(env));
      var i := 0;
      while i < |snap|
        invariant 0 <= i <= |snap|
        invariant NotifyAll(o, snap[i..], View(env)) == end
      {
        assert snap[i..][1..] == snap[i + 1..];
        var _ := Call(OnError, snap[i].id, env);
        i := i + 1;
      }
    }

    method DeliverToListeners(env: Envelope)
      modifies this, env
      ensures View(env) == Deliver(o, env.name, old(View(env)))
    {
      var snapshot := listeners;
      ghost var end := Deliver(o, env.name, View(env));
      var i := 0;
      while i < |snapshot|
        invariant 0 <= i <= |snapshot|
        invariant FanOut(o, snapshot[i..], env.name, View(env)) == end
      {
        assert snapshot[i..][1..] == snapshot[i + 1..];
        var e := snapshot[i];
        i := i + 1;
        if Hears(e, env.name) {
          counts := Plus(counts, INVOCATION);
          var outcome := Call(Handle, e.id, env);
          if outcome.Threw? {
            counts := Plus(counts, LISTENER_ERROR);
            TellMiddleware(env);
          }
        }
      }
    }

    method BeforeLoop(snap: seq<Middleware>, env: Envelope) returns (proceed: bool)
      modifies this, env
      ensures (View(env), proceed) == RunBefore(o, snap, old(View(env)))
    {
      ghost var end := RunBefore(o, snap, View(env));
      proceed := true;
      var i := 0;
      while i < |snap|
        invariant 0 <= i <= |snap| && proceed
        invariant RunBefore(o, snap[i..], View(env)) == end
      {
        assert snap[i..][1..] == snap[i + 1..];
        var outcome := Call(Before, snap[i].id, env);
        match outcome {
          case No =>
            proceed := false;
            counts := Plus(counts, DROPPED);
            return;
          case Yes =>
          case Threw =>
            var _ := Call(OnError, snap[i].id, env);
        }
        i := i + 1;
      }
    }

    method RouteLoop(snap: seq<Transport>, localOnly: bool, remoteOnly: bool, env: Envelope)
      modifies this, env
      ensures View(env) == Route(o, snap, localOnly, remoteOnly, old(View(env)))
    {
      ghost var end := Route(o, snap, localOnly, remoteOnly, View(env));
      var i := 0;
      while i < |snap|
        invariant 0 <= i <= |snap|
        invariant Route(o, snap[i..], localOnly, remoteOnly, View(env)) == end
      {
        assert snap[i..][1..] == snap[i + 1..];
        var t := snap[i];
        i := i + 1;
        if localOnly && t.scope != Local {
          continue;
        }
        if remoteOnly && t.scope != Remote {
          continue;
        }
        var outcome := Call(Dispatch, t.id, env);
        if outcome.Threw? {
          TellMiddleware(env);
        }
      }
    }

    method AfterLoop(snap: seq<Middleware>, env: Envelope)
      modifies this, env
      ensures View(env) == RunAfter(o, snap, old(View(env)))
    {
      ghost var end := RunAfter(o, snap, View(env));
      var n := |snap|;
      assert snap[..n] == snap;
      while n > 0
        invariant 0 <= n <= |snap|
        invariant RunAfter(o, snap[..n], View(env)) == end
      {
        assert snap[..n][..n - 1] == snap[..n - 1];
        n := n - 1;
        var outcome := Call(After, snap[n].id, env);
        if outcome.Threw? {
          var _ := Call(OnError, snap[n].id, env);
        }
      }
    }

    /// publish_impl().
    method PublishEnvelope(env: Envelope)
      modifies this, env
      ensures View(env) == Publish(o, env.name, old(View(env))).end
    {
      var localOnly := LocalOnly in env.flags;
      var remoteOnly := RemoteOnly in env.flags;
      counts := Plus(counts, PUBLISHED);
      var runMw := NoMiddleware !in env.flags;
      var mwSnapshot := if runMw then middleware else [];

      var proceed := true;
      if runMw {
        proceed := BeforeLoop(mwSnapshot, env);
      }
      var transportsSnapshot := transports;
      if localOnly && remoteOnly {
        TellMiddleware(env);
        proceed := false;
        counts := Plus(counts, DROPPED);
      }
      if proceed {
        RouteLoop(transportsSnapshot, localOnly, remoteOnly, env);
        if |transportsSnapshot| == 0 && !remoteOnly {
          DeliverToListeners(env);
        }
      }
      if runMw {
        AfterLoop(mwSnapshot, env);
      }
    }
  }
}
