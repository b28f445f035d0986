/// The handles and the registering side of the bus as objects. Every operation
/// does to its object exactly what the corresponding step does to the values.

module SubscriptionHandles {
  import opened Listeners
  import opened Subscriptions
  import Prioritized

  /// Which entry is erased: the first of that id.
  lemma EraseAt(es: seq<Entry>, id: nat, i: nat)
    requires i < |es| && es[i].id == id && forall j :: 0 <= j < i ==> es[j].id != id
    ensures id in Ids(es) && Erase(es, id) == es[..i] + es[i + 1..]
  {
    assert es[i] in es;
    var k := EraseSplits(es, id);
  }

  class Bus {
    var nextId: nat
    var entries: seq<Entry>
    var gauge: int

    constructor ()
      ensures nextId == 0 && View() == Book([], 0)
    {
      nextId, entries, gauge := 0, [], 0;
    }

    function View(): Book
      reads this
    {
      Book(entries, gauge)
    }

    /// listen(), with no other thread in between.
    method Register(nameOrPattern: string, isPattern: bool, priority: int) returns (sub: Subscription)
      modifies this
      ensures nextId == old(nextId) + 1
      ensures View() == Book(Prioritized.Insert(old(entries), Entry(nextId, nameOrPattern, isPattern, priority), Rank), old(gauge) + 1)
      ensures old(Prioritized.Sorted(entries, Rank)) ==>
                Prioritized.Inserted(old(entries), entries, Entry(nextId, nameOrPattern, isPattern, priority), Rank)
      ensures fresh(sub) && sub.backref == this && sub.Value() == Handle(true, nextId, true)
    {
      nextId := nextId + 1;
      ghost var was := entries;
      if Prioritized.Sorted(was, Rank) {
        Prioritized.InsertSplits(was, Entry(nextId, nameOrPattern, isPattern, priority), Rank);
      }
      entries := Prioritized.Insert(entries, Entry(nextId, nameOrPattern, isPattern, priority), Rank);
      gauge := gauge + 1;
      sub := new Subscription.For(this, nextId);
    }

    method Release(id: nat)
      modifies this
      ensures nextId == old(nextId) && View() == Released(old(View()), id)
    {
      var i := 0;
      while i < |entries|
        invariant 0 <= i <= |entries|
        invariant nextId == old(nextId) && View() == old(View())
        invariant forall j :: 0 <= j < i ==> entries[j].id != id
      {
        if entries[i].id == id {
          EraseAt(entries, id, i);
          entries := entries[..i] + entries[i + 1..];
          gauge := gauge - 1;
          return;
        }
        i := i + 1;
      }
      assert id !in Ids(entries);
    }
  }

  class Subscription {
    var backref: Bus?
    var id: nat
    var active: bool

    function Value(): Handle
      reads this
    {
      Handle(backref != null, id, active)
    }

    /// The bus an operation on this handle may change.
    function Target(): set<object>
      reads this
    {
      if backref == null then {} else {backref}
    }

    constructor ()
      ensures Value() == EMPTY && backref == null
    {
      backref, id, active := null, 0, false;
    }

    constructor For(bus: Bus, id: nat)
      ensures backref == bus && Value() == Handle(true, id, true)
    {
      backref, this.id, active := bus, id, true;
    }

    constructor Move(other: Subscription)
      modifies other
      ensures Value() == old(other.Value()) && backref == old(other.backref)
      ensures other.Value() == Spent(old(other.Value()))
    {
      backref, id, active := other.backref, other.id, other.active;
      new;
      other.backref := null;
      other.active := false;
    }

    method Release()
      modifies this, Target()
      ensures Value() == Spent(old(Value()))
      ensures var bus := old(backref);
              bus != null ==> bus.nextId == old(bus.nextId) &&
                              bus.View() == if old(Value()).Live() then Released(old(bus.View()), old(id)) else old(bus.View())
    {
      if active && backref != null {
        backref.Release(id);
      }
      active := false;
      backref := null;
    }

    method Detach()
      modifies this
      ensures Value() == Spent(old(Value()))
    {
      active := false;
      backref := null;
    }

    /// Move assignment; from itself it does nothing.
    method Assign(other: Subscription)
      modifies this, Target(), other
      ensures other == this ==> Value() == old(Value()) && backref == old(backref)
      ensures other != this ==> Value() == old(other.Value()) && backref == old(other.backref) &&
                                other.Value() == Spent(old(other.Value()))
      ensures var bus := old(backref);
              bus != null ==> bus.nextId == old(bus.nextId) &&
                              bus.View() == if other != this && old(Value()).Live() then Released(old(bus.View()), old(id)) else old(bus.View())
    {
      if this != other {
        Release();
        backref := other.backref;
        id := other.id;
        active := other.active;
        other.backref := null;
        other.active := false;
      }
    }
  }
}
