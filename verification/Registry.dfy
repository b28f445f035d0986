/// The event registry: versions are built aside and swapped in, so readers keep
/// what they have. But `add_descriptor` copies the current version before it
/// takes the lock, so overlapping calls can undo each other.

module Registry {
  import opened Options

  datatype Descriptor = Descriptor(kind: string, code: nat)

  /// The contents of one `parcel::ParcelRegistry`.
  type Kinds = map<string, Descriptor>

  /// `register_kind` on a copy.
  function With(k: Kinds, d: Descriptor): Kinds {
    k[d.kind := d]
  }

  /// A call of `add_descriptor` between its snapshot and its swap.
  datatype Call = Call(snapshot: nat, desc: Descriptor)

  /// A version of the registry: its contents, and the call that built it. The
  /// first versions of a run have none.
  datatype Version = Version(kinds: Kinds, maker: Option<Call>)

  /// Versions are objects on the heap, named by their position; readers and
  /// callers hold such names.
  datatype State = State(heap: seq<Version>, current: nat, open: map<nat, Call>)

  datatype Step =
    | Begin(id: nat, desc: Descriptor)    // snapshot()
    | Commit(id: nat)                     // build the next version and swap

  predicate Enabled(s: State, step: Step) {
    match step
    case Begin(id, _) => id !in s.open && s.current < |s.heap|
    case Commit(id) => id in s.open && s.open[id].snapshot < |s.heap|
  }

  function Apply(s: State, step: Step): State
    requires Enabled(s, step)
  {
    match step
    case Begin(id, d) => s.(open := s.open[id := Call(s.current, d)])
    case Commit(id) =>
      var c := s.open[id];
      State(s.heap + [Version(With(s.heap[c.snapshot].kinds, c.desc), Some(c))], |s.heap|, s.open - {id})
  }

  predicate Leads(s: State, steps: seq<Step>, s': State)
    decreases |steps|
  {
    if steps == [] then s == s' else Enabled(s, steps[0]) && Leads(Apply(s, steps[0]), steps[1..], s')
  }

  ghost predicate Valid(s: State) {
    s.current < |s.heap| && forall id :: id in s.open ==> s.open[id].snapshot < |s.heap|
  }

  function Now(s: State): Kinds
    requires s.current < |s.heap|
  {
    s.heap[s.current].kinds
  }

  // ----- readers ----------------------------------------------------------------------------

  /// A snapshot stays what it was for as long as it is held, whatever is
  /// registered meanwhile and however the calls overlap.
  lemma {:induction false} SnapshotsNeverChange(s: State, steps: seq<Step>, s': State, held: nat)
    requires Valid(s) && Leads(s, steps, s') && held < |s.heap|
    ensures Valid(s') && held < |s'.heap| && s'.heap[held] == s.heap[held]
    decreases |steps|
  {
    if steps != [] {
      SnapshotsNeverChange(Apply(s, steps[0]), steps[1..], s', held);
    }
  }

  // ----- writers that do not overlap -----------------------------------------------------------

  /// No call begins while another is open.
  predicate OneAtATime(s: State, steps: seq<Step>)
    decreases |steps|
  {
    steps == [] ||
    (Enabled(s, steps[0]) && (steps[0].Begin? ==> s.open == map[]) && OneAtATime(Apply(s, steps[0]), steps[1..]))
  }

  /// The open call, if any, has copied the current version.
  ghost predicate UpToDate(s: State) {
    (forall id :: id in s.open ==> s.open[id].snapshot == s.current) &&
    (forall i, j :: i in s.open && j in s.open ==> i == j)
  }

  /// Without overlap the current version only grows: every kind stays known, and
  /// keeps its descriptor unless that very kind is registered again.
  lemma {:induction false} VersionsGrow(s: State, steps: seq<Step>, s': State)
    requires Valid(s) && UpToDate(s) && Leads(s, steps, s') && OneAtATime(s, steps)
    ensures Valid(s') && Now(s).Keys <= Now(s').Keys
    ensures forall k :: k in Now(s) && Now(s')[k] != Now(s)[k] ==> Registers(s, steps, k)
    decreases |steps|
  {
    if steps != [] {
      StepGrows(s, steps[0]);
      VersionsGrow(Apply(s, steps[0]), steps[1..], s');
    }
  }

  /// Some commit of the run registers kind `k`.
  predicate Registers(s: State, steps: seq<Step>, k: string)
    decreases |steps|
  {
    steps != [] && Enabled(s, steps[0]) &&
    ((steps[0].Commit? && s.open[steps[0].id].desc.kind == k) || Registers(Apply(s, steps[0]), steps[1..], k))
  }

  lemma StepGrows(s: State, step: Step)
    requires Enabled(s, step) && Valid(s) && UpToDate(s) && (step.Begin? ==> s.open == map[])
    ensures var s' := Apply(s, step);
            Valid(s') && UpToDate(s') && Now(s).Keys <= Now(s').Keys &&
            forall k :: k in Now(s) && Now(s')[k] != Now(s)[k] ==> step.Commit? && s.open[step.id].desc.kind == k
  {
  }

  /// A call that no other swap overtakes registers its descriptor under its kind
  /// and leaves every other kind as it was.
  lemma UncontestedCall(s: State, id: nat)
    requires Enabled(s, Commit(id)) && Valid(s) && s.open[id].snapshot == s.current
    ensures var d, now := s.open[id].desc, Now(Apply(s, Commit(id)));
            d.kind in now && now[d.kind] == d &&
            forall k :: k != d.kind ==> (k in now <==> k in Now(s)) && (k in now ==> now[k] == Now(s)[k])
  {
  }

  // ----- writers that overlap ---------------------------------------------------------------------

  /// What a commit installs depends on its own snapshot alone; it keeps every
  /// known kind exactly when nothing but its own kind was added since.
  lemma CommitKeepsIff(s: State, id: nat)
    requires Enabled(s, Commit(id)) && Valid(s)
    ensures var c := s.open[id];
            Now(s).Keys <= Now(Apply(s, Commit(id))).Keys <==>
            Now(s).Keys - s.heap[c.snapshot].kinds.Keys <= {c.desc.kind}
  {
    var c := s.open[id];
    assert With(s.heap[c.snapshot].kinds, c.desc).Keys == s.heap[c.snapshot].kinds.Keys + {c.desc.kind};
  }

  // ----- any run ---------------------------------------------------------------------------------

  /// The registry as constructed.
  function Init(kinds: Kinds): State {
    State([Version(kinds, None)], 0, map[])
  }

  /// Every version but the first was built by a call from an earlier one.
  ghost predicate Built(heap: seq<Version>) {
    |heap| > 0 && heap[0].maker.None? &&
    forall v :: 0 < v < |heap| ==>
      heap[v].maker.Some? && heap[v].maker.value.snapshot < v &&
      heap[v].kinds == With(heap[heap[v].maker.value.snapshot].kinds, heap[v].maker.value.desc)
  }

  /// The descriptors registered on the way from the first version to version
  /// `v`, each call adding its own to those of the version it copied.
  function Chain(heap: seq<Version>, v: nat): seq<Descriptor> {
    if v < |heap| && heap[v].maker.Some? && heap[v].maker.value.snapshot < v
    then Chain(heap, heap[v].maker.value.snapshot) + [heap[v].maker.value.desc]
    else []
  }

  /// Whether version `u` is on that way.
  predicate Behind(heap: seq<Version>, u: nat, v: nat) {
    u == v || (v < |heap| && heap[v].maker.Some? && heap[v].maker.value.snapshot < v && Behind(heap, u, heap[v].maker.value.snapshot))
  }

  ghost predicate RunInv(s: State) {
    Built(s.heap) && s.current == |s.heap| - 1 && forall id :: id in s.open ==> s.open[id].snapshot < |s.heap|
  }

  lemma {:induction false} LeadsKeepsInv(s: State, steps: seq<Step>, s': State)
    requires RunInv(s) && Leads(s, steps, s')
    ensures RunInv(s') && s.heap <= s'.heap
    decreases |steps|
  {
    if steps != [] {
      LeadsKeepsInv(Apply(s, steps[0]), steps[1..], s');
    }
  }

  predicate Mentions(ds: seq<Descriptor>, k: string) {
    exists i :: 0 <= i < |ds| && ds[i].kind == k
  }

  lemma MentionsSnoc(ds: seq<Descriptor>, d: Descriptor, k: string)
    ensures Mentions(ds + [d], k) <==> Mentions(ds, k) || d.kind == k
  {
    var all := ds + [d];
    assert all[|ds|] == d && forall i :: 0 <= i < |ds| ==> all[i] == ds[i];
  }

  lemma {:induction false} ChainBuilds(heap: seq<Version>, v: nat, k: string)
    requires Built(heap) && v < |heap|
    ensures k in heap[v].kinds <==> k in heap[0].kinds || Mentions(Chain(heap, v), k)
    decreases v
  {
    if v > 0 {
      var u, d := heap[v].maker.value.snapshot, heap[v].maker.value.desc;
      ChainBuilds(heap, u, k);
      assert Chain(heap, v) == Chain(heap, u) + [d];
      MentionsSnoc(Chain(heap, u), d, k);
      hide Mentions;
    }
  }

  /// After any run, overlapping or not, a kind is known if and only if it was
  /// known at the start or one of the calls behind the current version
  /// registered it. Other registrations have left no trace.
  lemma KnownIffBehind(kinds: Kinds, steps: seq<Step>, s: State, k: string)
    requires Leads(Init(kinds), steps, s)
    ensures s.current < |s.heap|
    ensures k in Now(s) <==> k in kinds || Mentions(Chain(s.heap, s.current), k)
  {
    LeadsKeepsInv(Init(kinds), steps, s);
    ChainBuilds(s.heap, s.current, k);
  }

  /// No swap came between a call's snapshot and its own swap.
  predicate InTurn(heap: seq<Version>) {
    forall v :: 0 < v < |heap| ==> heap[v].maker.Some? && heap[v].maker.value.snapshot == v - 1
  }

  /// A call's version is behind the last one for good exactly when every call
  /// copied the version its own replaced: one overlapping pair of calls anywhere
  /// in the run, and some registration has left no trace.
  lemma NothingDroppedIff(kinds: Kinds, steps: seq<Step>, s: State)
    requires Leads(Init(kinds), steps, s)
    ensures (forall v :: 0 <= v < |s.heap| ==> Behind(s.heap, v, s.current)) <==> InTurn(s.heap)
  {
    LeadsKeepsInv(Init(kinds), steps, s);
    var n := s.current;
    if InTurn(s.heap) {
      forall v | 0 <= v < |s.heap| ensures Behind(s.heap, v, n) {
        InTurnBehind(s.heap, v, n);
      }
    } else {
      var v :| 0 < v < |s.heap| && !(s.heap[v].maker.Some? && s.heap[v].maker.value.snapshot == v - 1);
      Skipped(s.heap, v, n);
    }
  }

  /// Calls that do not overlap are in turn, so none of them is dropped.
  lemma {:induction false} SerialIsInTurn(s: State, steps: seq<Step>, s': State)
    requires RunInv(s) && InTurn(s.heap) && UpToDate(s) && Leads(s, steps, s') && OneAtATime(s, steps)
    ensures InTurn(s'.heap)
    decreases |steps|
  {
    if steps != [] {
      StepGrows(s, steps[0]);
      SerialIsInTurn(Apply(s, steps[0]), steps[1..], s');
    }
  }

  lemma {:induction false} InTurnBehind(heap: seq<Version>, u: nat, v: nat)
    requires InTurn(heap) && u <= v < |heap|
    ensures Behind(heap, u, v)
    decreases v
  {
    if u < v {
      InTurnBehind(heap, u, v - 1);
    }
  }

  /// When version `v` was not built from its predecessor, one of the two is
  /// behind no later version.
  lemma {:induction false} Skipped(heap: seq<Version>, v: nat, w: nat)
    requires Built(heap) && 0 < v <= w < |heap| && heap[v].maker.value.snapshot != v - 1
    ensures !(Behind(heap, v - 1, w) && Behind(heap, v, w))
    decreases w
  {
    var u := heap[w].maker.value.snapshot;
    if w == v {
      NotBehindEarlier(heap, v - 1, u);
    } else if v <= u {
      Skipped(heap, v, u);
    } else {
      NotBehindEarlier(heap, v, u);
    }
  }

  lemma {:induction false} NotBehindEarlier(heap: seq<Version>, u: nat, v: nat)
    requires v < u
    ensures !Behind(heap, u, v)
    decreases v
  {
    if v < |heap| && heap[v].maker.Some? && heap[v].maker.value.snapshot < v {
      NotBehindEarlier(heap, u, heap[v].maker.value.snapshot);
    }
  }

  /// Two overlapping calls: `d` then `e` begin, then commit in that order. The
  /// kind of `d` is known afterwards if and only if it was known before or is
  /// the kind of `e`, so the registration itself has no effect.
  lemma OverlapLosesTheFirst(s: State, i: nat, d: Descriptor, j: nat, e: Descriptor)
    requires Valid(s) && i != j && i !in s.open && j !in s.open
    ensures Enabled(s, Begin(i, d))
    ensures var s1 := Apply(s, Begin(i, d));
            Enabled(s1, Begin(j, e)) &&
            var s2 := Apply(s1, Begin(j, e));
            Enabled(s2, Commit(i)) &&
            var s3 := Apply(s2, Commit(i));
            Enabled(s3, Commit(j)) &&
            var s4 := Apply(s3, Commit(j));
            Valid(s3) && Valid(s4) &&
            d.kind in Now(s3) && (d.kind in Now(s4) <==> d.kind in Now(s) || d.kind == e.kind) &&
            Now(s4) == With(Now(s), e)
  {
  }

  // ----- the objects ----------------------------------------------------------------------------------

  class ParcelRegistry {
    var kinds: Kinds

    constructor (kinds: Kinds)
      ensures this.kinds == kinds
    {
      this.kinds := kinds;
    }

    method RegisterKind(d: Descriptor)
      modifies this
      ensures kinds == With(old(kinds), d)
    {
      kinds := kinds[d.kind := d];
    }
  }

  class EventRegistry {
    var registry: ParcelRegistry

    constructor (envelope: Descriptor)
      ensures fresh(registry) && registry.kinds == map[envelope.kind := envelope]
    {
      var reg := new ParcelRegistry(map[]);
      reg.RegisterKind(envelope);
      registry := reg;
    }

    method Snapshot() returns (r: ParcelRegistry)
      ensures r == registry
    {
      r := registry;
    }

    /// add_descriptor() from a snapshot taken earlier. Only the field changes:
    /// no version that a reader may hold is written.
    method Commit(current: ParcelRegistry, d: Descriptor)
      modifies this`registry
      ensures fresh(registry) && registry.kinds == With(old(current.kinds), d)
      ensures unchanged(current)
    {
      var next := new ParcelRegistry(current.kinds);
      next.RegisterKind(d);
      registry := next;
    }

    /// add_descriptor() with no other call in between.
    method AddDescriptor(d: Descriptor)
      modifies this`registry
      ensures fresh(registry) && registry.kinds == With(old(registry.kinds), d)
      ensures unchanged(old(registry))
    {
      var current := Snapshot();
      Commit(current, d);
    }
  }
}
