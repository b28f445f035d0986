/// The in-process transport's bounded in-flight protocol as a state machine
/// over any number of producers, pool workers and flushers.
///
/// `drain_mu_` protects every read and write of `outstanding_` and both
/// condition variables are signalled under it, so each stretch of code that
/// holds the mutex is one step here. Everything else interleaves freely.

module LocalTransport {
  import opened Listeners

  // ----- data -------------------------------------------------------------------

  datatype Execution = Direct | Queue | ThreadPool

  datatype Envelope = Envelope(name: string, body: int, direct: bool)

  /// One `dispatch` call that got past the gate. `ticket` numbers these calls.
  datatype Unit = Unit(ticket: nat, pid: nat, env: Envelope)

  /// One listener call made for a unit.
  datatype Invocation = Invocation(unit: Unit, listener: nat)

  /// What stays fixed during a run. `programs` lists what each producer publishes.
  datatype Config = Config(
    mode: Execution,
    capacity: nat,
    maxWorkers: nat,
    listeners: seq<Entry>,
    programs: map<nat, seq<Envelope>>,
    flushers: set<nat>)

  /// The fields under the mutex, and who is blocked in the two condition waits:
  /// asleep, or woken and about to take the mutex and test again.
  datatype Gate = Gate(
    outstanding: int,
    sleeping: set<nat>,
    notified: set<nat>,
    flushWaiting: set<nat>,
    flushAwake: set<nat>)

  datatype State = State(
    gate: Gate,
    todo: map<nat, seq<Envelope>>,           // per producer, still to dispatch
    held: set<Unit>,                         // counted but not yet submitted
    queue: seq<Unit>,                        // the pool's FIFO queue
    running: map<Unit, seq<Invocation>>,     // on a worker, with the calls left
    inline: map<Unit, seq<Invocation>>,      // delivered on the caller's thread
    flushTodo: set<nat>,
    flushed: set<nat>,
    // what has happened so far
    issued: seq<Unit>,
    inlined: seq<Unit>,
    accepted: seq<Unit>,
    refused: seq<Unit>,
    started: seq<Unit>,
    completed: seq<Unit>,
    trace: seq<Invocation>)

  datatype Step =
    | Dispatch(pid: nat)                       // enter dispatch()
    | Wake(pid: nat)                           // a woken producer tests again
    | SpuriousWake(pid: nat)
    | Accept(unit: Unit)                       // pool_->execute took the task
    | Refuse(unit: Unit, woken: set<nat>)      // pool_->execute threw
    | Start                                    // a worker takes the queue's head
    | Invoke(unit: Unit)                       // it calls the next listener
    | Complete(unit: Unit, woken: set<nat>)    // it runs complete_one()
    | InlineInvoke(unit: Unit)
    | InlineReturn(unit: Unit)
    | Flush(fid: nat)                          // enter flush()
    | FlushWake(fid: nat)
    | FlushSpuriousWake(fid: nat)
  {
    predicate IsSpurious() {
      SpuriousWake? || FlushSpuriousWake?
    }
  }

  /// A queue is a single worker whatever count was configured.
  function Workers(c: Config): nat {
    if c.mode.Queue? then 1 else c.maxWorkers
  }

  predicate ValidConfig(c: Config) {
    c.mode.ThreadPool? ==> c.maxWorkers >= 1
  }

  /// Delivered on the caller's thread, bypassing the pool.
  predicate Inline(c: Config, e: Envelope) {
    c.mode.Direct? || e.direct
  }

  // ----- listener fan-out -------------------------------------------------------

  function Calls(es: seq<Entry>, u: Unit): (calls: seq<Invocation>)
    ensures |calls| <= |es|
    ensures forall i :: 0 <= i < |calls| ==> calls[i].unit == u
  {
    if es == [] then []
    else (if Hears(es[0], u.env.name) then [Invocation(u, es[0].id)] else []) + Calls(es[1..], u)
  }

  /// The listener calls one delivery of `u` makes, in order.
  function Fan(c: Config, u: Unit): (calls: seq<Invocation>)
    ensures |calls| <= |c.listeners|
    ensures forall i :: 0 <= i < |calls| ==> calls[i].unit == u
  {
    Calls(c.listeners, u)
  }

  // ----- the critical sections ---------------------------------------------------

  predicate Full(capacity: nat, g: Gate) {
    capacity != 0 && g.outstanding >= capacity
  }

  /// dispatch(): wait for space, then count the unit.
  function TryReserve(capacity: nat, g: Gate, p: nat): Gate {
    if Full(capacity, g)
    then g.(sleeping := g.sleeping + {p}, notified := g.notified - {p})
    else g.(outstanding := g.outstanding + 1, notified := g.notified - {p})
  }

  /// notify_one wakes one sleeper if there is any.
  predicate MayWake(g: Gate, woken: set<nat>) {
    if g.sleeping == {} then woken == {} else exists p :: p in g.sleeping && woken == {p}
  }

  /// complete_one().
  function CompleteOne(g: Gate, woken: set<nat>): Gate {
    var n := g.outstanding - 1;
    Gate(n, g.sleeping - woken, g.notified + woken,
         if n == 0 then {} else g.flushWaiting,
         if n == 0 then g.flushAwake + g.flushWaiting else g.flushAwake)
  }

  /// flush(): return at zero, otherwise wait.
  function TryFlush(g: Gate, f: nat): Gate {
    if g.outstanding == 0 then g.(flushAwake := g.flushAwake - {f})
    else g.(flushWaiting := g.flushWaiting + {f}, flushAwake := g.flushAwake - {f})
  }

  // ----- steps --------------------------------------------------------------------

  predicate Busy(s: State, p: nat) {
    p in s.gate.sleeping || p in s.gate.notified ||
    exists u :: u in s.held + s.inline.Keys && u.pid == p
  }

  predicate Enabled(c: Config, s: State, step: Step) {
    match step
    case Dispatch(p) => p in s.todo && s.todo[p] != [] && !Busy(s, p)
    case Wake(p) => p in s.gate.notified && p in s.todo && s.todo[p] != []
    case SpuriousWake(p) => p in s.gate.sleeping
    case Accept(u) => u in s.held
    case Refuse(u, woken) => u in s.held && MayWake(s.gate, woken)
    case Start => s.queue != [] && |s.running| < Workers(c)
    case Invoke(u) => u in s.running && s.running[u] != []
    case Complete(u, woken) => u in s.running && s.running[u] == [] && MayWake(s.gate, woken)
    case InlineInvoke(u) => u in s.inline && s.inline[u] != []
    case InlineReturn(u) => u in s.inline && s.inline[u] == []
    case Flush(f) => f in s.flushTodo
    case FlushWake(f) => f in s.gate.flushAwake
    case FlushSpuriousWake(f) => f in s.gate.flushWaiting
  }

  function Next(s: State, p: nat): Unit
    requires p in s.todo && s.todo[p] != []
  {
    Unit(|s.issued|, p, s.todo[p][0])
  }

  /// Producer `p` at the gate, on entry or after a wake-up.
  function AtGate(c: Config, s: State, p: nat): State
    requires p in s.todo && s.todo[p] != []
  {
    var g := TryReserve(c.capacity, s.gate, p);
    if Full(c.capacity, s.gate) then s.(gate := g)
    else
      var u := Next(s, p);
      s.(gate := g, todo := s.todo[p := s.todo[p][1..]], issued := s.issued + [u], held := s.held + {u})
  }

  function AtFlush(s: State, f: nat): State {
    s.(gate := TryFlush(s.gate, f), flushTodo := s.flushTodo - {f},
       flushed := if s.gate.outstanding == 0 then s.flushed + {f} else s.flushed)
  }

  function Apply(c: Config, s: State, step: Step): State
    requires Enabled(c, s, step)
  {
    match step
    case Dispatch(p) =>
      if Inline(c, s.todo[p][0]) then
        var u := Next(s, p);
        s.(todo := s.todo[p := s.todo[p][1..]], issued := s.issued + [u], inlined := s.inlined + [u],
           inline := s.inline[u := Fan(c, u)])
      else AtGate(c, s, p)
    case Wake(p) => AtGate(c, s, p)
    case SpuriousWake(p) =>
      s.(gate := s.gate.(sleeping := s.gate.sleeping - {p}, notified := s.gate.notified + {p}))
    case Accept(u) =>
      s.(held := s.held - {u}, queue := s.queue + [u], accepted := s.accepted + [u])
    case Refuse(u, woken) =>
      s.(held := s.held - {u}, refused := s.refused + [u], gate := CompleteOne(s.gate, woken))
    case Start =>
      var u := s.queue[0];
      s.(queue := s.queue[1..], started := s.started + [u], running := s.running[u := Fan(c, u)])
    case Invoke(u) =>
      s.(running := s.running[u := s.running[u][1..]], trace := s.trace + [s.running[u][0]])
    case Complete(u, woken) =>
      s.(running := s.running - {u}, completed := s.completed + [u], gate := CompleteOne(s.gate, woken))
    case InlineInvoke(u) =>
      s.(inline := s.inline[u := s.inline[u][1..]], trace := s.trace + [s.inline[u][0]])
    case InlineReturn(u) => s.(inline := s.inline - {u})
    case Flush(f) => AtFlush(s, f)
    case FlushWake(f) => AtFlush(s, f)
    case FlushSpuriousWake(f) =>
      s.(gate := s.gate.(flushWaiting := s.gate.flushWaiting - {f}, flushAwake := s.gate.flushAwake + {f}))
  }

  function Init(c: Config): State {
    State(Gate(0, {}, {}, {}, {}), c.programs, {}, [], map[], map[], c.flushers, {},
          [], [], [], [], [], [], [])
  }

  /// `steps` leads from `s` to `s'`.
  predicate Leads(c: Config, s: State, steps: seq<Step>, s': State)
    decreases |steps|
  {
    if steps == [] then s == s'
    else Enabled(c, s, steps[0]) && Leads(c, Apply(c, s, steps[0]), steps[1..], s')
  }

  predicate Reaches(c: Config, steps: seq<Step>, s: State) {
    ValidConfig(c) && Leads(c, Init(c), steps, s)
  }

  // ----- invariant, part 1: the gate -----------------------------------------------

  /// Counting, the bound, and no lost wake-up on either condition variable.
  ghost predicate GateInv(c: Config, g: Gate, held: nat, queued: nat, running: nat) {
    g.outstanding == held + queued + running &&
    running <= Workers(c) &&
    (c.capacity != 0 ==> g.outstanding <= c.capacity) &&
    (g.sleeping != {} ==> c.capacity != 0 && |g.notified| >= c.capacity - g.outstanding) &&
    (g.flushWaiting != {} ==> g.outstanding != 0) &&
    g.sleeping !! g.notified
  }

  /// A producer with something to send, not waiting in the gate.
  predicate Waits(c: Config, todo: map<nat, seq<Envelope>>, p: nat) {
    p in todo && todo[p] != [] && !Inline(c, todo[p][0])
  }

  /// Who is where: a producer is in at most one place.
  ghost predicate PlaceInv(c: Config, sleeping: set<nat>, notified: set<nat>, todo: map<nat, seq<Envelope>>, busy: set<Unit>) {
    (forall p :: p in sleeping ==> Waits(c, todo, p)) &&
    (forall p :: p in notified ==> Waits(c, todo, p)) &&
    (forall u :: u in busy ==> u.pid in todo && u.pid !in sleeping && u.pid !in notified) &&
    (forall u, v :: u in busy && v in busy && u.pid == v.pid ==> u == v)
  }

  ghost predicate FlushInv(c: Config, waiting: set<nat>, awake: set<nat>, flushTodo: set<nat>) {
    flushTodo <= c.flushers && awake <= c.flushers && waiting <= c.flushers
  }

  // ----- invariant, part 2: nothing lost, nothing doubled -----------------------------

  ghost predicate Ticketed(us: seq<Unit>) {
    forall i :: 0 <= i < |us| ==> us[i].ticket == i
  }

  ghost predicate LedgerInv(s: State) {
    Ticketed(s.issued) &&
    multiset(s.issued) == multiset(s.inlined) + multiset(s.accepted) + multiset(s.refused) + multiset(s.held) &&
    s.accepted == s.started + s.queue &&
    multiset(s.started) == multiset(s.completed) + multiset(s.running.Keys) &&
    (forall u :: u in s.inline ==> u in s.inlined)
  }

  // ----- invariant, part 3: listener calls ------------------------------------------------

  function Proj(trace: seq<Invocation>, u: Unit): seq<Invocation> {
    if trace == [] then []
    else
      var n := |trace| - 1;
      Proj(trace[..n], u) + (if trace[n].unit == u then [trace[n]] else [])
  }

  function Left(running: map<Unit, seq<Invocation>>, inline: map<Unit, seq<Invocation>>, u: Unit): seq<Invocation> {
    if u in running then running[u] else if u in inline then inline[u] else []
  }

  /// The unit has made a prefix of its calls and has the rest left.
  ghost predicate CallsOf(c: Config, trace: seq<Invocation>, left: seq<Invocation>, u: Unit) {
    Proj(trace, u) + left == Fan(c, u)
  }

  ghost predicate CallInv(c: Config, s: State) {
    (forall u :: u in s.started || u in s.inlined ==> CallsOf(c, s.trace, Left(s.running, s.inline, u), u)) &&
    (forall u :: u !in s.started && u !in s.inlined ==> Proj(s.trace, u) == [])
  }

  // ----- invariant, part 4: order ------------------------------------------------------------

  function Of(us: seq<Unit>, p: nat): seq<Unit> {
    if us == [] then []
    else
      var n := |us| - 1;
      Of(us[..n], p) + (if us[n].pid == p then [us[n]] else [])
  }

  function Envs(us: seq<Unit>): (es: seq<Envelope>)
    ensures |es| == |us| && forall i :: 0 <= i < |us| ==> es[i] == us[i].env
  {
    seq(|us|, i requires 0 <= i < |us| => us[i].env)
  }

  function Flat(c: Config, us: seq<Unit>): seq<Invocation> {
    if us == [] then []
    else
      var n := |us| - 1;
      Flat(c, us[..n]) + Fan(c, us[n])
  }

  /// At most the last unit of `order` is active; the calls made are, in order,
  /// all those of the units before it and the first of its own.
  ghost predicate Serial(c: Config, active: map<Unit, seq<Invocation>>, order: seq<Unit>, trace: seq<Invocation>) {
    if active.Keys == {} then trace == Flat(c, order)
    else order != [] && active.Keys == {order[|order| - 1]} && trace + active[order[|order| - 1]] == Flat(c, order)
  }

  ghost predicate Sent(c: Config, issued: seq<Unit>, todo: map<nat, seq<Envelope>>, p: nat) {
    p in todo && p in c.programs && Envs(Of(issued, p)) + todo[p] == c.programs[p]
  }

  /// What a producer has sent and has yet to send is its program.
  ghost predicate ProgramInv(c: Config, issued: seq<Unit>, todo: map<nat, seq<Envelope>>) {
    (forall p :: p in c.programs ==> Sent(c, issued, todo, p)) &&
    (forall i :: 0 <= i < |issued| ==> issued[i].pid in c.programs)
  }

  /// Each producer's units reach the pool in the order it issued them.
  ghost predicate HandInv(held: set<Unit>, issued: seq<Unit>, accepted: seq<Unit>) {
    (forall u :: u in held ==> Of(issued, u.pid) == Of(accepted, u.pid) + [u]) &&
    (forall p :: (forall u :: u in held ==> u.pid != p) ==> Of(issued, p) == Of(accepted, p))
  }

  ghost predicate OrderInv(c: Config, s: State) {
    ProgramInv(c, s.issued, s.todo) &&
    (c.mode.Direct? ==> s.issued == s.inlined && s.held == {}) &&
    (s.refused == [] && s.inlined == [] ==> HandInv(s.held, s.issued, s.accepted)) &&
    (c.mode.Queue? && s.inlined == [] ==> Serial(c, s.running, s.started, s.trace)) &&
    (c.mode.Direct? && |c.programs| == 1 ==> Serial(c, s.inline, s.inlined, s.trace))
  }

  ghost predicate Inv(c: Config, s: State) {
    ValidConfig(c) && s.todo.Keys == c.programs.Keys &&
    GateInv(c, s.gate, |s.held|, |s.queue|, |s.running|) &&
    PlaceInv(c, s.gate.sleeping, s.gate.notified, s.todo, s.held + s.inline.Keys) &&
    FlushInv(c, s.gate.flushWaiting, s.gate.flushAwake, s.flushTodo) &&
    LedgerInv(s) && CallInv(c, s) && OrderInv(c, s)
  }

  // ----- small facts ------------------------------------------------------------------------

  lemma ProjAppend(trace: seq<Invocation>, x: Invocation, u: Unit)
    ensures Proj(trace + [x], u) == Proj(trace, u) + (if x.unit == u then [x] else [])
  {
    assert (trace + [x])[..|trace|] == trace;
  }

  lemma OfAppend(us: seq<Unit>, x: Unit, p: nat)
    ensures Of(us + [x], p) == Of(us, p) + (if x.pid == p then [x] else [])
  {
    assert (us + [x])[..|us|] == us;
  }

  lemma FlatAppend(c: Config, us: seq<Unit>, x: Unit)
    ensures Flat(c, us + [x]) == Flat(c, us) + Fan(c, x)
  {
    assert (us + [x])[..|us|] == us;
  }

  /// Tickets make issued units distinct.
  lemma {:induction false} IssuedOnce(us: seq<Unit>, u: Unit)
    requires Ticketed(us)
    ensures multiset(us)[u] <= 1
    ensures u.ticket >= |us| ==> multiset(us)[u] == 0
  {
    if us != [] {
      var n := |us| - 1;
      assert us == us[..n] + [us[n]];
      IssuedOnce(us[..n], u);
    }
  }

  /// No unit stands in two of the ledger's columns, or twice in one.
  lemma ColumnsDisjoint(s: State, u: Unit)
    requires LedgerInv(s)
    ensures multiset(s.inlined)[u] + multiset(s.accepted)[u] + multiset(s.refused)[u] + multiset(s.held)[u] <= 1
    ensures multiset(s.accepted)[u] == multiset(s.completed)[u] + multiset(s.running.Keys)[u] + multiset(s.queue)[u]
    ensures u.ticket >= |s.issued| ==>
              u !in s.inlined && u !in s.accepted && u !in s.refused && u !in s.held && u !in s.started
  {
    IssuedOnce(s.issued, u);
    assert multiset(s.accepted) == multiset(s.started) + multiset(s.queue);
  }

  // ----- every step keeps the invariant ---------------------------------------------------------

  lemma TicketIsNew(s: State, p: nat)
    requires LedgerInv(s) && p in s.todo && s.todo[p] != []
    ensures var u := Next(s, p);
            u !in s.held && u !in s.inlined && u !in s.started && u !in s.inline && u !in s.running
  {
    var u := Next(s, p);
    ColumnsDisjoint(s, u);
    if u in s.running { RunningIsStarted(s, u); }
  }

  lemma RunningIsStarted(s: State, u: Unit)
    requires LedgerInv(s) && u in s.running
    ensures u in s.started && u !in s.inline && u !in s.inlined
  {
    ColumnsDisjoint(s, u);
    assert multiset(s.started)[u] >= multiset(s.running.Keys)[u] >= 1;
    assert u in multiset(s.started);
    assert multiset(s.accepted) == multiset(s.started) + multiset(s.queue);
  }

  lemma InlineIsInlined(s: State, u: Unit)
    requires LedgerInv(s) && u in s.inline
    ensures u in s.inlined && u !in s.started && u !in s.running
  {
    ColumnsDisjoint(s, u);
    assert multiset(s.accepted) == multiset(s.started) + multiset(s.queue);
    if u in s.running { RunningIsStarted(s, u); }
  }

  lemma StartIsNew(s: State)
    requires LedgerInv(s) && s.queue != []
    ensures s.queue[0] !in s.running && s.queue[0] !in s.started && s.queue[0] !in s.inlined && s.queue[0] !in s.inline
  {
    var u := s.queue[0];
    ColumnsDisjoint(s, u);
    assert multiset(s.queue)[u] >= 1;
    assert multiset(s.started)[u] == multiset(s.completed)[u] + multiset(s.running.Keys)[u];
  }

  lemma MapGrows(m: map<Unit, seq<Invocation>>, u: Unit, v: seq<Invocation>)
    ensures m[u := v].Keys == m.Keys + {u}
    ensures |m[u := v]| == if u in m then |m| else |m| + 1
  {
    assert m[u := v].Keys == m.Keys + {u};
    assert |m[u := v]| == |m[u := v].Keys| && |m| == |m.Keys|;
    if u in m { assert m.Keys + {u} == m.Keys; }
  }

  lemma KeysKept<K, V>(m: map<K, V>, k: K, v: V)
    requires k in m
    ensures m[k := v].Keys == m.Keys
  {
  }

  lemma MapShrinks(m: map<Unit, seq<Invocation>>, u: Unit)
    requires u in m
    ensures (m - {u}).Keys == m.Keys - {u} && |m - {u}| == |m| - 1
  {
    assert (m - {u}).Keys == m.Keys - {u};
    assert |m - {u}| == |(m - {u}).Keys| && |m| == |m.Keys|;
  }

  /// Completing frees one slot and wakes one sleeper if there is one.
  lemma CompleteKeepsGate(c: Config, g: Gate, woken: set<nat>, h: nat, q: nat, r: nat, h': nat, r': nat)
    requires GateInv(c, g, h, q, r) && MayWake(g, woken) && h' + r' == h + r - 1 && r' <= r
    ensures GateInv(c, CompleteOne(g, woken), h', q, r')
  {
    if g.sleeping != {} {
      var p :| p in g.sleeping && woken == {p};
      assert |g.notified + {p}| == |g.notified| + 1;
    }
  }

  lemma CompleteKeepsPlaces(c: Config, g: Gate, woken: set<nat>, todo: map<nat, seq<Envelope>>, busy: set<Unit>, busy': set<Unit>)
    requires MayWake(g, woken) && busy' <= busy
    requires PlaceInv(c, g.sleeping, g.notified, todo, busy)
    ensures var g' := CompleteOne(g, woken); PlaceInv(c, g'.sleeping, g'.notified, todo, busy')
  {
  }

  // Frames ----------------------------------------------------------------------------------

  predicate SameCalls(s: State, s': State) {
    s'.started == s.started && s'.inlined == s.inlined && s'.trace == s.trace &&
    s'.running == s.running && s'.inline == s.inline
  }

  predicate SameWork(s: State, s': State) {
    SameCalls(s, s') && s'.held == s.held && s'.queue == s.queue && s'.issued == s.issued &&
    s'.accepted == s.accepted && s'.refused == s.refused && s'.completed == s.completed && s'.todo == s.todo
  }

  lemma CallFrame(c: Config, s: State, s': State)
    requires CallInv(c, s) && SameCalls(s, s')
    ensures CallInv(c, s')
  {
  }

  lemma WorkFrame(c: Config, s: State, s': State)
    requires LedgerInv(s) && OrderInv(c, s) && CallInv(c, s) && SameWork(s, s')
    ensures LedgerInv(s') && OrderInv(c, s') && CallInv(c, s')
  {
  }

  // Steps at the gate -------------------------------------------------------------------------

  /// `p` stands in front of the gate: it has a pooled envelope and is nowhere else.
  ghost predicate InFront(c: Config, s: State, p: nat) {
    Waits(c, s.todo, p) && p !in s.gate.sleeping && forall v :: v in s.held + s.inline.Keys ==> v.pid != p
  }

  lemma GateTest(c: Config, g: Gate, p: nat, h: nat, q: nat, r: nat)
    requires GateInv(c, g, h, q, r) && p !in g.sleeping
    ensures GateInv(c, TryReserve(c.capacity, g, p), if Full(c.capacity, g) then h else h + 1, q, r)
  {
  }

  lemma BlockKeepsPlaces(c: Config, g: Gate, g': Gate, todo: map<nat, seq<Envelope>>, busy: set<Unit>, p: nat)
    requires PlaceInv(c, g.sleeping, g.notified, todo, busy) && Waits(c, todo, p) && forall v :: v in busy ==> v.pid != p
    requires g'.sleeping <= g.sleeping + {p} && g'.notified <= g.notified + {p}
    ensures PlaceInv(c, g'.sleeping, g'.notified, todo, busy)
  {
  }

  lemma BlockedKept(c: Config, s: State, s': State, p: nat)
    requires InFront(c, s, p) && Full(c.capacity, s.gate) && s' == AtGate(c, s, p)
    requires Inv(c, s)
    ensures Inv(c, s')
  {
    hide GateInv, PlaceInv, FlushInv, LedgerInv, CallInv, OrderInv;
    GateTest(c, s.gate, p, |s.held|, |s.queue|, |s.running|);
    BlockKeepsPlaces(c, s.gate, s'.gate, s.todo, s.held + s.inline.Keys, p);
    WorkFrame(c, s, s');
  }

  lemma SpuriousKeepsPlaces(c: Config, g: Gate, g': Gate, todo: map<nat, seq<Envelope>>, busy: set<Unit>, p: nat)
    requires PlaceInv(c, g.sleeping, g.notified, todo, busy) && p in g.sleeping
    requires g'.sleeping <= g.sleeping && g'.notified <= g.notified + {p}
    ensures PlaceInv(c, g'.sleeping, g'.notified, todo, busy)
  {
  }

  lemma SpuriousWakeKept(c: Config, s: State, s': State, p: nat)
    requires p in s.gate.sleeping && s' == Apply(c, s, SpuriousWake(p))
    requires Inv(c, s)
    ensures Inv(c, s')
  {
    hide PlaceInv, FlushInv, LedgerInv, CallInv, OrderInv;
    assert |s.gate.notified + {p}| == |s.gate.notified| + 1;
    SpuriousKeepsPlaces(c, s.gate, s'.gate, s.todo, s.held + s.inline.Keys, p);
    WorkFrame(c, s, s');
  }

  lemma AtFlushKept(c: Config, s: State, s': State, f: nat)
    requires (f in s.flushTodo || f in s.gate.flushAwake) && s' == AtFlush(s, f)
    requires Inv(c, s)
    ensures Inv(c, s')
  {
    hide PlaceInv, LedgerInv, CallInv, OrderInv;
    WorkFrame(c, s, s');
  }

  lemma FlushSpuriousKept(c: Config, s: State, s': State, f: nat)
    requires f in s.gate.flushWaiting && s' == Apply(c, s, FlushSpuriousWake(f))
    requires Inv(c, s)
    ensures Inv(c, s')
  {
    hide PlaceInv, LedgerInv, CallInv, OrderInv;
    WorkFrame(c, s, s');
  }

  // A producer sends ----------------------------------------------------------------------------

  lemma SendKeepsProgram(c: Config, s: State, p: nat)
    requires ProgramInv(c, s.issued, s.todo) && s.todo.Keys == c.programs.Keys && p in s.todo && s.todo[p] != []
    ensures ProgramInv(c, s.issued + [Next(s, p)], s.todo[p := s.todo[p][1..]])
  {
    hide Sent;
    forall q | q in c.programs ensures Sent(c, s.issued + [Next(s, p)], s.todo[p := s.todo[p][1..]], q) {
      assert Sent(c, s.issued, s.todo, q);
      SendKeepsSent(c, s, p, q);
    }
  }

  lemma SendKeepsSent(c: Config, s: State, p: nat, q: nat)
    requires Sent(c, s.issued, s.todo, q) && p in s.todo && s.todo[p] != []
    ensures Sent(c, s.issued + [Next(s, p)], s.todo[p := s.todo[p][1..]], q)
  {
    hide Of;
    var u := Next(s, p);
    OfAppend(s.issued, u, q);
    if q == p {
      assert Envs(Of(s.issued, p) + [u]) == Envs(Of(s.issued, p)) + [u.env];
      assert s.todo[p] == [u.env] + s.todo[p][1..];
    } else {
      assert Of(s.issued + [u], q) == Of(s.issued, q);
    }
  }

  lemma SendKeepsPlaces(c: Config, g: Gate, g': Gate, todo: map<nat, seq<Envelope>>, busy: set<Unit>, u: Unit)
    requires PlaceInv(c, g.sleeping, g.notified, todo, busy) && u.pid in todo && todo[u.pid] != []
    requires g'.sleeping == g.sleeping && g'.notified == g.notified - {u.pid} && u.pid !in g.sleeping
    requires forall v :: v in busy ==> v.pid != u.pid
    ensures PlaceInv(c, g'.sleeping, g'.notified, todo[u.pid := todo[u.pid][1..]], busy + {u})
  {
  }

  lemma HandTakes(s: State, u: Unit)
    requires HandInv(s.held, s.issued, s.accepted) && forall v :: v in s.held ==> v.pid != u.pid
    ensures HandInv(s.held + {u}, s.issued + [u], s.accepted)
  {
    forall p ensures Of(s.issued + [u], p) == Of(s.issued, p) + (if u.pid == p then [u] else []) {
      OfAppend(s.issued, u, p);
    }
    forall p | forall v :: v in s.held + {u} ==> v.pid != p
      ensures Of(s.issued + [u], p) == Of(s.accepted, p)
    {
      assert u in s.held + {u};
    }
  }

  predicate Reserves(c: Config, s: State, s': State, p: nat) {
    p in s.todo && s.todo[p] != [] && !Full(c.capacity, s.gate) && s' == AtGate(c, s, p)
  }

  lemma ReserveGate(c: Config, s: State, s': State, p: nat)
    requires Reserves(c, s, s', p) && p !in s.gate.sleeping
    requires LedgerInv(s) && GateInv(c, s.gate, |s.held|, |s.queue|, |s.running|)
    ensures GateInv(c, s'.gate, |s'.held|, |s'.queue|, |s'.running|)
  {
    TicketIsNew(s, p);
    assert |s'.held| == |s.held| + 1;
  }

  lemma ReservePlace(c: Config, s: State, s': State, p: nat)
    requires Reserves(c, s, s', p) && InFront(c, s, p)
    requires PlaceInv(c, s.gate.sleeping, s.gate.notified, s.todo, s.held + s.inline.Keys)
    ensures PlaceInv(c, s'.gate.sleeping, s'.gate.notified, s'.todo, s'.held + s'.inline.Keys)
  {
    SendKeepsPlaces(c, s.gate, s'.gate, s.todo, s.held + s.inline.Keys, Next(s, p));
    assert s'.held + s'.inline.Keys == s.held + s.inline.Keys + {Next(s, p)};
  }

  lemma ReserveLedger(c: Config, s: State, s': State, p: nat)
    requires Reserves(c, s, s', p)
    requires LedgerInv(s)
    ensures LedgerInv(s')
  {
    TicketIsNew(s, p);
    assert multiset(s'.held) == multiset(s.held) + multiset{Next(s, p)};
  }

  lemma ReserveOrder(c: Config, s: State, s': State, p: nat)
    requires Reserves(c, s, s', p) && InFront(c, s, p)
    requires CallInv(c, s) && OrderInv(c, s) && s.todo.Keys == c.programs.Keys
    ensures CallInv(c, s') && OrderInv(c, s') && s'.todo.Keys == c.programs.Keys
  {
    hide HandInv, ProgramInv, Serial;
    KeysKept(s.todo, p, s.todo[p][1..]);
    CallFrame(c, s, s');
    SendKeepsProgram(c, s, p);
    if s.refused == [] && s.inlined == [] { HandTakes(s, Next(s, p)); }
  }

  lemma ReservedKept(c: Config, s: State, s': State, p: nat)
    requires InFront(c, s, p) && Reserves(c, s, s', p)
    requires Inv(c, s)
    ensures Inv(c, s')
  {
    hide GateInv, PlaceInv, LedgerInv, CallInv, OrderInv;
    ReserveGate(c, s, s', p);
    ReservePlace(c, s, s', p);
    ReserveLedger(c, s, s', p);
    ReserveOrder(c, s, s', p);
  }

  // Delivery on the caller's thread ---------------------------------------------------------------

  /// A unit that is new to the trace starts with all its calls left.
  lemma NewUnitCalls(c: Config, s: State, s': State, u: Unit)
    requires CallInv(c, s) && u !in s.started && u !in s.inlined && s'.trace == s.trace
    requires Left(s'.running, s'.inline, u) == Fan(c, u)
    requires forall v :: v != u ==> Left(s'.running, s'.inline, v) == Left(s.running, s.inline, v)
    requires forall v :: (v in s'.started || v in s'.inlined) <==> (v in s.started || v in s.inlined || v == u)
    ensures CallInv(c, s')
  {
    hide Fan, Proj, Left;
    assert Proj(s.trace, u) == [];
    assert [] + Fan(c, u) == Fan(c, u);
  }

  /// A unit entering an idle lane leaves the calls made so far in order.
  lemma SerialEnter(c: Config, active: map<Unit, seq<Invocation>>, order: seq<Unit>, trace: seq<Invocation>, u: Unit)
    requires Serial(c, active, order, trace) && active.Keys == {}
    ensures Serial(c, active[u := Fan(c, u)], order + [u], trace)
  {
    FlatAppend(c, order, u);
    assert active[u := Fan(c, u)].Keys == {u};
  }

  lemma SerialCall(c: Config, active: map<Unit, seq<Invocation>>, order: seq<Unit>, trace: seq<Invocation>, u: Unit)
    requires Serial(c, active, order, trace) && u in active && active[u] != []
    ensures Serial(c, active[u := active[u][1..]], order, trace + [active[u][0]])
  {
    assert active.Keys == {u} by { assert u in active.Keys; }
    assert active[u := active[u][1..]].Keys == {u};
    assert trace + active[u] == trace + [active[u][0]] + active[u][1..];
  }

  lemma SerialLeave(c: Config, active: map<Unit, seq<Invocation>>, order: seq<Unit>, trace: seq<Invocation>, u: Unit)
    requires Serial(c, active, order, trace) && u in active && active[u] == []
    ensures Serial(c, active - {u}, order, trace)
  {
    assert active.Keys == {u} by { assert u in active.Keys; }
    assert (active - {u}).Keys == {};
    assert trace + [] == trace;
  }

  predicate Inlines(c: Config, s: State, s': State, p: nat) {
    p in s.todo && s.todo[p] != [] && Inline(c, s.todo[p][0]) && !Busy(s, p) && s' == Apply(c, s, Dispatch(p))
  }

  lemma InlinePlace(c: Config, s: State, s': State, p: nat)
    requires Inlines(c, s, s', p)
    requires PlaceInv(c, s.gate.sleeping, s.gate.notified, s.todo, s.held + s.inline.Keys)
    ensures PlaceInv(c, s'.gate.sleeping, s'.gate.notified, s'.todo, s'.held + s'.inline.Keys)
  {
    var u := Next(s, p);
    MapGrows(s.inline, u, Fan(c, u));
    SendKeepsPlaces(c, s.gate, s'.gate, s.todo, s.held + s.inline.Keys, u);
    assert s'.held + s'.inline.Keys == s.held + s.inline.Keys + {u};
  }

  lemma InlineLedger(c: Config, s: State, s': State, p: nat)
    requires Inlines(c, s, s', p)
    requires LedgerInv(s)
    ensures LedgerInv(s')
  {
    TicketIsNew(s, p);
  }

  lemma InlineCalls(c: Config, s: State, s': State, p: nat)
    requires Inlines(c, s, s', p)
    requires LedgerInv(s) && CallInv(c, s)
    ensures CallInv(c, s')
  {
    hide CallInv, Fan;
    TicketIsNew(s, p);
    hide LedgerInv;
    NewUnitCalls(c, s, s', Next(s, p));
  }

  lemma OnlyProducer(c: Config, p: nat, q: nat)
    requires |c.programs| == 1 && p in c.programs && q in c.programs
    ensures p == q
  {
    assert |c.programs.Keys - {p}| == 0;
    assert q !in c.programs.Keys - {p};
  }

  lemma InlineOrder(c: Config, s: State, s': State, p: nat)
    requires Inlines(c, s, s', p)
    requires OrderInv(c, s) && s.todo.Keys == c.programs.Keys
    requires forall u :: u in s.held + s.inline.Keys ==> u.pid in s.todo
    ensures OrderInv(c, s') && s'.todo.Keys == c.programs.Keys
  {
    hide HandInv, ProgramInv, Serial, Fan;
    KeysKept(s.todo, p, s.todo[p][1..]);
    SendKeepsProgram(c, s, p);
    if c.mode.Direct? && |c.programs| == 1 {
      forall u | u in s.inline.Keys ensures false {
        OnlyProducer(c, p, u.pid);
      }
      SerialEnter(c, s.inline, s.inlined, s.trace, Next(s, p));
    }
  }

  lemma InlineKept(c: Config, s: State, s': State, p: nat)
    requires Inlines(c, s, s', p)
    requires Inv(c, s)
    ensures Inv(c, s')
  {
    assert forall u :: u in s.held + s.inline.Keys ==> u.pid in s.todo;
    hide GateInv, PlaceInv, FlushInv, LedgerInv, CallInv, OrderInv;
    InlinePlace(c, s, s', p);
    InlineLedger(c, s, s', p);
    InlineCalls(c, s, s', p);
    InlineOrder(c, s, s', p);
  }

  /// Moving the next call from "left" to the trace changes no unit's sum.
  lemma CallMade(c: Config, s: State, s': State, u: Unit)
    requires CallInv(c, s) && s'.started == s.started && s'.inlined == s.inlined
    requires u in s.started || u in s.inlined
    requires var left := Left(s.running, s.inline, u);
             left != [] && s'.trace == s.trace + [left[0]] && Left(s'.running, s'.inline, u) == left[1..]
    requires forall v :: v != u ==> Left(s'.running, s'.inline, v) == Left(s.running, s.inline, v)
    ensures CallInv(c, s')
  {
    hide Fan, Proj, Left;
    var left := Left(s.running, s.inline, u);
    assert CallsOf(c, s.trace, left, u);
    FanUnit(c, u, Proj(s.trace, u), left);
    forall v ensures Proj(s'.trace, v) == Proj(s.trace, v) + (if v == u then [left[0]] else []) {
      ProjAppend(s.trace, left[0], v);
    }
    assert Proj(s'.trace, u) + left[1..] == Proj(s.trace, u) + left;
    forall v | v in s'.started || v in s'.inlined
      ensures CallsOf(c, s'.trace, Left(s'.running, s'.inline, v), v)
    {
      assert CallsOf(c, s.trace, Left(s.running, s.inline, v), v);
      assert v != u ==> Proj(s.trace, v) + [] == Proj(s.trace, v);
    }
    forall v | v !in s'.started && v !in s'.inlined ensures Proj(s'.trace, v) == [] {
      assert v != u;
    }
  }

  lemma FanUnit(c: Config, u: Unit, made: seq<Invocation>, left: seq<Invocation>)
    requires made + left == Fan(c, u) && left != []
    ensures left[0].unit == u
  {
    assert left[0] == (made + left)[|made|];
  }

  lemma InlineInvokeCalls(c: Config, s: State, s': State, u: Unit)
    requires u in s.inline && s.inline[u] != [] && s' == Apply(c, s, InlineInvoke(u))
    requires LedgerInv(s) && CallInv(c, s)
    ensures LedgerInv(s') && CallInv(c, s')
  {
    hide CallInv, Fan;
    InlineIsInlined(s, u);
    CallMade(c, s, s', u);
  }

  lemma InlineInvokeOrder(c: Config, s: State, s': State, u: Unit)
    requires u in s.inline && s.inline[u] != [] && s' == Apply(c, s, InlineInvoke(u)) && u in s.inlined
    requires OrderInv(c, s)
    ensures OrderInv(c, s')
  {
    hide ProgramInv, HandInv, Serial;
    if c.mode.Direct? && |c.programs| == 1 { SerialCall(c, s.inline, s.inlined, s.trace, u); }
  }

  lemma InlineInvokeKept(c: Config, s: State, s': State, u: Unit)
    requires u in s.inline && s.inline[u] != [] && s' == Apply(c, s, InlineInvoke(u))
    requires Inv(c, s)
    ensures Inv(c, s')
  {
    hide GateInv, PlaceInv, FlushInv, LedgerInv, CallInv, OrderInv;
    InlineIsInlined(s, u);
    MapGrows(s.inline, u, s.inline[u][1..]);
    assert s'.inline.Keys == s.inline.Keys;
    InlineInvokeCalls(c, s, s', u);
    InlineInvokeOrder(c, s, s', u);
  }

  lemma PlaceShrinks(c: Config, g: Gate, todo: map<nat, seq<Envelope>>, busy: set<Unit>, busy': set<Unit>)
    requires PlaceInv(c, g.sleeping, g.notified, todo, busy) && busy' <= busy
    ensures PlaceInv(c, g.sleeping, g.notified, todo, busy')
  {
  }

  /// A unit with no calls left may go.
  lemma CallsDone(c: Config, s: State, s': State, u: Unit)
    requires CallInv(c, s) && s'.started == s.started && s'.inlined == s.inlined && s'.trace == s.trace
    requires forall v :: Left(s'.running, s'.inline, v) == Left(s.running, s.inline, v)
    ensures CallInv(c, s')
  {
    hide Fan, Proj, Left;
  }

  lemma InlineReturnCalls(c: Config, s: State, s': State, u: Unit)
    requires u in s.inline && s.inline[u] == [] && s' == Apply(c, s, InlineReturn(u))
    requires LedgerInv(s) && CallInv(c, s)
    ensures LedgerInv(s') && CallInv(c, s')
  {
    hide CallInv, Fan;
    InlineIsInlined(s, u);
    CallsDone(c, s, s', u);
  }

  lemma InlineReturnOrder(c: Config, s: State, s': State, u: Unit)
    requires u in s.inline && s.inline[u] == [] && s' == Apply(c, s, InlineReturn(u))
    requires OrderInv(c, s)
    ensures OrderInv(c, s')
  {
    hide ProgramInv, HandInv, Serial;
    if c.mode.Direct? && |c.programs| == 1 { SerialLeave(c, s.inline, s.inlined, s.trace, u); }
  }

  lemma InlineReturnKept(c: Config, s: State, s': State, u: Unit)
    requires u in s.inline && s.inline[u] == [] && s' == Apply(c, s, InlineReturn(u))
    requires Inv(c, s)
    ensures Inv(c, s')
  {
    hide GateInv, PlaceInv, FlushInv, LedgerInv, CallInv, OrderInv;
    MapShrinks(s.inline, u);
    PlaceShrinks(c, s.gate, s.todo, s.held + s.inline.Keys, s'.held + s'.inline.Keys);
    InlineReturnCalls(c, s, s', u);
    InlineReturnOrder(c, s, s', u);
  }

  // Submission --------------------------------------------------------------------------------------

  lemma HandGives(held: set<Unit>, issued: seq<Unit>, accepted: seq<Unit>, u: Unit)
    requires HandInv(held, issued, accepted) && u in held && forall v :: v in held && v.pid == u.pid ==> v == u
    ensures HandInv(held - {u}, issued, accepted + [u])
  {
    forall p ensures Of(accepted + [u], p) == Of(accepted, p) + (if u.pid == p then [u] else []) {
      OfAppend(accepted, u, p);
    }
    forall p | forall v :: v in held - {u} ==> v.pid != p
      ensures Of(issued, p) == Of(accepted + [u], p)
    {
      if p != u.pid {
        assert forall v :: v in held ==> v == u || v in held - {u};
      }
    }
  }

  lemma AcceptLedger(c: Config, s: State, s': State, u: Unit)
    requires u in s.held && s' == Apply(c, s, Accept(u))
    requires LedgerInv(s)
    ensures LedgerInv(s')
  {
    HeldLoses(s.held, u);
    assert s'.accepted == s'.started + s'.queue;
  }

  lemma HeldLoses(held: set<Unit>, u: Unit)
    requires u in held
    ensures |held - {u}| == |held| - 1
    ensures multiset(held) == multiset(held - {u}) + multiset{u}
  {
  }

  lemma AcceptOrder(c: Config, s: State, s': State, u: Unit)
    requires u in s.held && s' == Apply(c, s, Accept(u)) && forall v :: v in s.held && v.pid == u.pid ==> v == u
    requires CallInv(c, s) && OrderInv(c, s)
    ensures CallInv(c, s') && OrderInv(c, s')
  {
    hide CallInv, ProgramInv, HandInv, Serial;
    CallFrame(c, s, s');
    if s.refused == [] && s.inlined == [] { HandGives(s.held, s.issued, s.accepted, u); }
  }

  lemma OneHeldEach(c: Config, s: State, u: Unit)
    requires Inv(c, s) && u in s.held
    ensures forall v :: v in s.held && v.pid == u.pid ==> v == u
  {
    assert forall v :: v in s.held ==> v in s.held + s.inline.Keys;
  }

  lemma AcceptGate(c: Config, s: State, s': State, u: Unit)
    requires u in s.held && s' == Apply(c, s, Accept(u))
    requires GateInv(c, s.gate, |s.held|, |s.queue|, |s.running|)
    ensures GateInv(c, s'.gate, |s'.held|, |s'.queue|, |s'.running|)
  {
    HeldLoses(s.held, u);
  }

  lemma AcceptKept(c: Config, s: State, s': State, u: Unit)
    requires u in s.held && s' == Apply(c, s, Accept(u))
    requires Inv(c, s)
    ensures Inv(c, s')
  {
    hide GateInv, PlaceInv, FlushInv, LedgerInv, CallInv, OrderInv;
    OneHeldEach(c, s, u);
    AcceptGate(c, s, s', u);
    PlaceShrinks(c, s.gate, s.todo, s.held + s.inline.Keys, s'.held + s'.inline.Keys);
    AcceptLedger(c, s, s', u);
    AcceptOrder(c, s, s', u);
  }

  lemma RefuseLedger(c: Config, s: State, s': State, u: Unit, woken: set<nat>)
    requires u in s.held && MayWake(s.gate, woken) && s' == Apply(c, s, Refuse(u, woken))
    requires LedgerInv(s)
    ensures LedgerInv(s')
  {
    HeldLoses(s.held, u);
  }

  lemma CompleteKeepsFlush(c: Config, g: Gate, woken: set<nat>, flushTodo: set<nat>)
    requires FlushInv(c, g.flushWaiting, g.flushAwake, flushTodo)
    ensures var g' := CompleteOne(g, woken); FlushInv(c, g'.flushWaiting, g'.flushAwake, flushTodo)
  {
  }

  lemma RefuseKept(c: Config, s: State, s': State, u: Unit, woken: set<nat>)
    requires u in s.held && MayWake(s.gate, woken) && s' == Apply(c, s, Refuse(u, woken))
    requires Inv(c, s)
    ensures Inv(c, s')
  {
    hide GateInv, PlaceInv, FlushInv, LedgerInv, CallInv, ProgramInv, HandInv, Serial, MayWake;
    assert |s'.held| == |s.held| - 1;
    CompleteKeepsGate(c, s.gate, woken, |s.held|, |s.queue|, |s.running|, |s'.held|, |s.running|);
    CompleteKeepsFlush(c, s.gate, woken, s.flushTodo);
    hide CompleteOne;
    CompleteKeepsPlaces(c, s.gate, woken, s.todo, s.held + s.inline.Keys, s'.held + s'.inline.Keys);
    CallFrame(c, s, s');
    RefuseLedger(c, s, s', u, woken);
  }

  // Workers -----------------------------------------------------------------------------------------

  lemma StartLedger(c: Config, s: State, s': State)
    requires s.queue != [] && |s.running| < Workers(c) && s' == Apply(c, s, Start)
    requires LedgerInv(s)
    ensures LedgerInv(s')
  {
    var u := s.queue[0];
    StartIsNew(s);
    MapGrows(s.running, u, Fan(c, u));
    assert s.queue == [u] + s.queue[1..];
    assert s'.accepted == s'.started + s'.queue;
    assert multiset(s'.running.Keys) == multiset(s.running.Keys) + multiset{u};
  }

  lemma StartOrder(c: Config, s: State, s': State)
    requires s.queue != [] && |s.running| < Workers(c) && s' == Apply(c, s, Start)
    requires LedgerInv(s) && CallInv(c, s) && OrderInv(c, s)
    ensures CallInv(c, s') && OrderInv(c, s')
  {
    var u := s.queue[0];
    StartIsNew(s);
    hide LedgerInv, CallInv, ProgramInv, HandInv, Serial, Fan;
    NewUnitCalls(c, s, s', u);
    if c.mode.Queue? && s.inlined == [] {
      assert s.running.Keys == {} by { assert |s.running.Keys| == |s.running|; }
      SerialEnter(c, s.running, s.started, s.trace, u);
    }
  }

  lemma StartKept(c: Config, s: State, s': State)
    requires s.queue != [] && |s.running| < Workers(c) && s' == Apply(c, s, Start)
    requires Inv(c, s)
    ensures Inv(c, s')
  {
    hide PlaceInv, FlushInv, LedgerInv, CallInv, OrderInv;
    StartIsNew(s);
    MapGrows(s.running, s.queue[0], Fan(c, s.queue[0]));
    StartLedger(c, s, s');
    StartOrder(c, s, s');
  }

  lemma InvokeLedger(c: Config, s: State, s': State, u: Unit)
    requires u in s.running && s.running[u] != [] && s' == Apply(c, s, Invoke(u))
    requires LedgerInv(s)
    ensures LedgerInv(s')
  {
    MapGrows(s.running, u, s.running[u][1..]);
    assert s'.running.Keys == s.running.Keys;
  }

  lemma InvokeKept(c: Config, s: State, s': State, u: Unit)
    requires u in s.running && s.running[u] != [] && s' == Apply(c, s, Invoke(u))
    requires Inv(c, s)
    ensures Inv(c, s')
  {
    hide GateInv, PlaceInv, FlushInv, LedgerInv, CallInv, ProgramInv, HandInv, Serial, Fan;
    RunningIsStarted(s, u);
    MapGrows(s.running, u, s.running[u][1..]);
    InvokeLedger(c, s, s', u);
    CallMade(c, s, s', u);
    if c.mode.Queue? && s.inlined == [] { SerialCall(c, s.running, s.started, s.trace, u); }
  }

  lemma CompleteLedger(c: Config, s: State, s': State, u: Unit, woken: set<nat>)
    requires u in s.running && s.running[u] == [] && MayWake(s.gate, woken) && s' == Apply(c, s, Complete(u, woken))
    requires LedgerInv(s)
    ensures LedgerInv(s')
  {
    MapShrinks(s.running, u);
    assert multiset(s.running.Keys) == multiset(s'.running.Keys) + multiset{u};
  }

  lemma CompleteOrder(c: Config, s: State, s': State, u: Unit, woken: set<nat>)
    requires u in s.running && s.running[u] == [] && MayWake(s.gate, woken) && s' == Apply(c, s, Complete(u, woken))
    requires LedgerInv(s) && CallInv(c, s) && OrderInv(c, s)
    ensures CallInv(c, s') && OrderInv(c, s')
  {
    RunningIsStarted(s, u);
    hide LedgerInv, CallInv, ProgramInv, HandInv, Serial;
    CallsDone(c, s, s', u);
    if c.mode.Queue? && s.inlined == [] { SerialLeave(c, s.running, s.started, s.trace, u); }
  }

  lemma CompleteKept(c: Config, s: State, s': State, u: Unit, woken: set<nat>)
    requires u in s.running && s.running[u] == [] && MayWake(s.gate, woken) && s' == Apply(c, s, Complete(u, woken))
    requires Inv(c, s)
    ensures Inv(c, s')
  {
    hide GateInv, PlaceInv, FlushInv, LedgerInv, CallInv, OrderInv, MayWake;
    MapShrinks(s.running, u);
    CompleteKeepsGate(c, s.gate, woken, |s.held|, |s.queue|, |s.running|, |s.held|, |s'.running|);
    CompleteKeepsFlush(c, s.gate, woken, s.flushTodo);
    hide CompleteOne;
    CompleteKeepsPlaces(c, s.gate, woken, s.todo, s.held + s.inline.Keys, s.held + s.inline.Keys);
    CompleteLedger(c, s, s', u, woken);
    CompleteOrder(c, s, s', u, woken);
  }

  // All of them ---------------------------------------------------------------------------------------

  lemma DispatchKept(c: Config, s: State, s': State, p: nat)
    requires Enabled(c, s, Dispatch(p)) && s' == Apply(c, s, Dispatch(p))
    requires Inv(c, s)
    ensures Inv(c, s')
  {
    hide Inv;
    if Inline(c, s.todo[p][0]) {
      InlineKept(c, s, s', p);
    } else {
      assert InFront(c, s, p);
      if Full(c.capacity, s.gate) { BlockedKept(c, s, s', p); } else { ReservedKept(c, s, s', p); }
    }
  }

  lemma WakeKept(c: Config, s: State, s': State, p: nat)
    requires Enabled(c, s, Wake(p)) && s' == Apply(c, s, Wake(p))
    requires Inv(c, s)
    ensures Inv(c, s')
  {
    assert InFront(c, s, p);
    hide Inv;
    if Full(c.capacity, s.gate) { BlockedKept(c, s, s', p); } else { ReservedKept(c, s, s', p); }
  }

  /// Every step of every thread keeps the invariant.
  lemma StepKeepsInv(c: Config, s: State, step: Step)
    requires Inv(c, s) && Enabled(c, s, step)
    ensures Inv(c, Apply(c, s, step))
  {
    hide Inv;
    var s' := Apply(c, s, step);
    match step
    case Dispatch(p) => DispatchKept(c, s, s', p);
    case Wake(p) => WakeKept(c, s, s', p);
    case SpuriousWake(p) => SpuriousWakeKept(c, s, s', p);
    case Accept(u) => AcceptKept(c, s, s', u);
    case Refuse(u, woken) => RefuseKept(c, s, s', u, woken);
    case Start => StartKept(c, s, s');
    case Invoke(u) => InvokeKept(c, s, s', u);
    case Complete(u, woken) => CompleteKept(c, s, s', u, woken);
    case InlineInvoke(u) => InlineInvokeKept(c, s, s', u);
    case InlineReturn(u) => InlineReturnKept(c, s, s', u);
    case Flush(f) => AtFlushKept(c, s, s', f);
    case FlushWake(f) => AtFlushKept(c, s, s', f);
    case FlushSpuriousWake(f) => FlushSpuriousKept(c, s, s', f);
  }
}
