/// The priority-ordered containers of the bus and the listener entries in one.

module Prioritized {

  ghost predicate Sorted<T>(xs: seq<T>, priority: T -> int) {
    forall i, j :: 0 <= i < j < |xs| ==> priority(xs[i]) <= priority(xs[j])
  }

  /// Insert behind every element of the same or a lower priority number. An
  /// element already present stays where it is.
  function Insert<T(==)>(xs: seq<T>, x: T, priority: T -> int): seq<T> {
    if x in xs then xs else Place(xs, x, priority)
  }

  function Place<T>(xs: seq<T>, x: T, priority: T -> int): seq<T> {
    if xs == [] then [x]
    else if priority(xs[0]) > priority(x) then [x] + xs
    else [xs[0]] + Place(xs[1..], x, priority)
  }

  /// The new element splits the old ones, which keep their order, into those
  /// not after it and those after it: so equal priorities keep insertion order.
  lemma {:induction false} PlaceSplits<T>(xs: seq<T>, x: T, priority: T -> int) returns (k: nat)
    requires Sorted(xs, priority)
    ensures k <= |xs| && Place(xs, x, priority) == xs[..k] + [x] + xs[k..]
    ensures forall i :: 0 <= i < k ==> priority(xs[i]) <= priority(x)
    ensures forall i :: k <= i < |xs| ==> priority(xs[i]) > priority(x)
  {
    if xs == [] || priority(xs[0]) > priority(x) {
      k := 0;
    } else {
      var tail := xs[1..];
      var j := PlaceSplits(tail, x, priority);
      assert [xs[0]] + (tail[..j] + [x] + tail[j..]) == xs[..j + 1] + [x] + xs[j + 1..];
      k := j + 1;
      assert forall i :: 0 < i < k ==> xs[i] == tail[i - 1];
      assert forall i :: k <= i < |xs| ==> xs[i] == tail[i - 1];
    }
  }

  lemma SplitSorted<T>(xs: seq<T>, x: T, priority: T -> int, k: nat)
    requires Sorted(xs, priority) && k <= |xs|
    requires forall i :: 0 <= i < k ==> priority(xs[i]) <= priority(x)
    requires forall i :: k <= i < |xs| ==> priority(xs[i]) > priority(x)
    ensures Sorted(xs[..k] + [x] + xs[k..], priority)
  {
  }

  /// The container stays ordered and distinct, and gains exactly the new element.
  lemma InsertKeeps<T>(xs: seq<T>, x: T, priority: T -> int)
    requires Sorted(xs, priority)
    ensures var ys := Insert(xs, x, priority);
            Sorted(ys, priority) && multiset(ys) == (if x in xs then multiset(xs) else multiset(xs) + multiset{x})
  {
    if x !in xs {
      var k := PlaceSplits(xs, x, priority);
      SplitSorted(xs, x, priority, k);
      assert xs == xs[..k] + xs[k..];
    }
  }

  /// `ys` is `xs` with `x` at position `k`: behind everything of the same or a
  /// lower priority number, in front of everything of a higher one.
  ghost predicate InsertedAt<T>(xs: seq<T>, ys: seq<T>, x: T, priority: T -> int, k: nat) {
    k <= |xs| && ys == xs[..k] + [x] + xs[k..] &&
    (forall i :: 0 <= i < k ==> priority(xs[i]) <= priority(x)) &&
    (forall i :: k <= i < |xs| ==> priority(xs[i]) > priority(x))
  }

  /// What insertion does: a new element goes behind its equals, all others keep
  /// their order; one that is there already changes nothing.
  ghost predicate Inserted<T>(xs: seq<T>, ys: seq<T>, x: T, priority: T -> int) {
    if x in xs then ys == xs else exists k: nat :: InsertedAt(xs, ys, x, priority, k)
  }

  lemma InsertSplits<T>(xs: seq<T>, x: T, priority: T -> int)
    requires Sorted(xs, priority)
    ensures Inserted(xs, Insert(xs, x, priority), x, priority)
  {
    if x !in xs {
      var k := PlaceSplits(xs, x, priority);
      assert InsertedAt(xs, Insert(xs, x, priority), x, priority, k);
    }
  }

  /// In order and without repetition.
  ghost predicate Kept<T>(xs: seq<T>, priority: T -> int) {
    Sorted(xs, priority) && forall i, j :: 0 <= i < j < |xs| ==> xs[i] != xs[j]
  }

  lemma InsertKept<T>(xs: seq<T>, x: T, priority: T -> int)
    requires Kept(xs, priority)
    ensures Kept(Insert(xs, x, priority), priority)
  {
    if x !in xs {
      var k := PlaceSplits(xs, x, priority);
      SplitSorted(xs, x, priority, k);
      var ys := xs[..k] + [x] + xs[k..];
      assert forall i :: 0 <= i < |ys| ==> ys[i] == if i < k then xs[i] else if i == k then x else xs[i - 1];
      hide Sorted, Place;
    }
  }
}

module Listeners {
  import Glob
  import Prioritized

  datatype Entry = Entry(id: nat, nameOrPattern: string, isPattern: bool, priority: int)

  function Rank(e: Entry): int {
    e.priority
  }

  /// The id is an entry's identity.
  ghost predicate Distinct(es: seq<Entry>) {
    forall i, j :: 0 <= i < j < |es| ==> es[i].id != es[j].id
  }

  /// Whether the bus calls this listener for an event of the given name.
  predicate Hears(e: Entry, name: string) {
    if e.isPattern then Glob.Accepts(e.nameOrPattern, name) else e.nameOrPattern == name
  }

  /// The entries called for `name`, in the order they are kept.
  function Heard(es: seq<Entry>, name: string): seq<Entry> {
    if es == [] then []
    else (if Hears(es[0], name) then [es[0]] else []) + Heard(es[1..], name)
  }

  /// `Bus::listen(pattern, ...)` decides between glob and exact name by looking
  /// for a star. Either way a safe pattern is heard by its documented meaning.
  lemma HearsMeaning(e: Entry, name: string)
    requires e.isPattern <==> '*' in e.nameOrPattern
    ensures Hears(e, name) ==> Glob.Matches(e.nameOrPattern, name)
    ensures Glob.SafePattern(e.nameOrPattern) ==> (Hears(e, name) <==> Glob.Matches(e.nameOrPattern, name))
  {
    if !e.isPattern { Glob.StarFreeIsEquality(e.nameOrPattern, name); }
    if Hears(e, name) { Glob.AcceptsSound(e.nameOrPattern, name); }
    if Glob.SafePattern(e.nameOrPattern) { Glob.AcceptsExactOnSafe(e.nameOrPattern, name); }
  }

  /// What a listener hears, pattern or not: a pattern what the matcher finds by
  /// placing each star once, from the left; any other exactly its own name.
  lemma HearsExactly(e: Entry, name: string)
    ensures e.isPattern ==> (Hears(e, name) <==> exists pieces :: Glob.FirstFit(Glob.Tokens(e.nameOrPattern), name, pieces))
    ensures !e.isPattern ==> (Hears(e, name) <==> e.nameOrPattern == name)
  {
    hide Glob.FirstFit, Glob.Accepts;
    Glob.AcceptsFirstFit(e.nameOrPattern, name);
  }

  /// Delivery calls exactly the kept listeners that hear the name ...
  lemma {:induction false} HeardExactly(es: seq<Entry>, name: string, e: Entry)
    ensures e in Heard(es, name) <==> e in es && Hears(e, name)
    ensures multiset(Heard(es, name))[e] == if Hears(e, name) then multiset(es)[e] else 0
    decreases |es|
  {
    hide Hears;
    if es != [] {
      HeardExactly(es[1..], name, e);
      assert es == [es[0]] + es[1..];
    }
  }

  /// ... in priority order, and each once, when that is how they are kept.
  lemma {:induction false} HeardInOrder(es: seq<Entry>, name: string)
    requires Prioritized.Sorted(es, Rank) && Distinct(es)
    ensures Prioritized.Sorted(Heard(es, name), Rank) && Distinct(Heard(es, name))
    decreases |es|
  {
    hide Hears;
    if es != [] {
      HeardInOrder(es[1..], name);
      HeadFirst(es, name);
      if Hears(es[0], name) { ConsInOrder(es[0], Heard(es[1..], name)); }
    }
  }

  lemma HeadFirst(es: seq<Entry>, name: string)
    requires es != [] && Prioritized.Sorted(es, Rank) && Distinct(es)
    ensures forall e :: e in Heard(es[1..], name) ==> Rank(es[0]) <= Rank(e) && es[0].id != e.id
  {
    forall e | e in Heard(es[1..], name) ensures Rank(es[0]) <= Rank(e) && es[0].id != e.id {
      HeardExactly(es[1..], name, e);
      var j :| 0 <= j < |es[1..]| && es[1..][j] == e;
      assert es[j + 1] == e;
    }
  }

  lemma ConsInOrder(e: Entry, rest: seq<Entry>)
    requires Prioritized.Sorted(rest, Rank) && Distinct(rest)
    requires forall f :: f in rest ==> Rank(e) <= Rank(f) && e.id != f.id
    ensures Prioritized.Sorted([e] + rest, Rank) && Distinct([e] + rest)
  {
    var all := [e] + rest;
    forall i, j | 0 <= i < j < |all| ensures Rank(all[i]) <= Rank(all[j]) && all[i].id != all[j].id {
      assert all[j] == rest[j - 1];
      if i > 0 { assert all[i] == rest[i - 1]; } else { assert rest[j - 1] in rest; }
    }
  }
}
