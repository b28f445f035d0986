/// The in-process transport as an object: the critical sections that the
/// protocol takes as single steps, carried out on the transport's own fields
/// and its two condition variables.

module LocalTransportObject {
  import opened LocalTransport

  /// A condition variable: who sleeps on it and who was woken but has not yet
  /// tested its condition again.
  class Condition {
    var asleep: set<nat>
    var awake: set<nat>

    constructor ()
      ensures asleep == awake == {}
    {
      asleep, awake := {}, {};
    }

    /// `caller` found its condition false.
    method Sleep(caller: nat)
      modifies this
      ensures asleep == old(asleep) + {caller} && awake == old(awake) - {caller}
    {
      asleep, awake := asleep + {caller}, awake - {caller};
    }

    /// `caller` found its condition true.
    method Pass(caller: nat)
      modifies this
      ensures asleep == old(asleep) && awake == old(awake) - {caller}
    {
      awake := awake - {caller};
    }

    method NotifyOne() returns (woken: set<nat>)
      modifies this
      ensures if old(asleep) == {} then woken == {} else exists p :: p in old(asleep) && woken == {p}
      ensures asleep == old(asleep) - woken && awake == old(awake) + woken
    {
      woken := {};
      if asleep != {} {
        var p :| p in asleep;
        woken := {p};
      }
      asleep, awake := asleep - woken, awake + woken;
    }

    method NotifyAll()
      modifies this
      ensures asleep == {} && awake == old(awake) + old(asleep)
    {
      asleep, awake := {}, awake + asleep;
    }
  }

  class Transport {
    const mode: Execution
    const capacity: nat
    const workers: nat
    const space: Condition     // fires when a slot frees
    const drained: Condition   // fires at zero
    var outstanding: int

    /// Direct mode has no pool and counts nothing.
    ghost predicate Valid()
      reads this
    {
      space != drained && (mode.Direct? ==> outstanding == 0)
    }

    function View(): Gate
      reads this, space, drained
    {
      Gate(outstanding, space.asleep, space.awake, drained.asleep, drained.awake)
    }

    /// The queue bound becomes the blocking bound, which direct mode has not;
    /// a queue has one worker whatever was asked for.
    constructor (c: Config)
      ensures Valid() && View() == Init(c).gate
      ensures mode == c.mode && (!c.mode.Direct? ==> workers == Workers(c))
      ensures capacity == if c.mode.Direct? then 0 else c.capacity
    {
      var maxWorkers := c.maxWorkers;
      if c.mode.Queue? {
        maxWorkers := 1;
      }
      mode := c.mode;
      workers := maxWorkers;
      capacity := if c.mode.Direct? then 0 else c.capacity;
      outstanding := 0;
      space := new Condition();
      drained := new Condition();
    }

    /// dispatch(): one test of the wait condition, on entry or after a wake-up.
    method Reserve(p: nat) returns (reserved: bool)
      requires Valid() && !mode.Direct?
      modifies this, space
      ensures Valid() && View() == TryReserve(capacity, old(View()), p)
      ensures reserved <==> !Full(capacity, old(View()))
    {
      if capacity != 0 && outstanding >= capacity {
        space.Sleep(p);
        return false;
      }
      space.Pass(p);
      outstanding := outstanding + 1;
      return true;
    }

    method CompleteOne() returns (woken: set<nat>)
      requires Valid() && !mode.Direct?
      modifies this, space, drained
      ensures Valid() && MayWake(old(View()), woken) && View() == LocalTransport.CompleteOne(old(View()), woken)
    {
      outstanding := outstanding - 1;
      if outstanding == 0 {
        drained.NotifyAll();
      }
      woken := space.NotifyOne();
    }

    /// flush(): one test of its wait condition; without a pool it just returns.
    method Flush(f: nat) returns (returned: bool)
      requires Valid()
      modifies drained
      ensures View() == TryFlush(old(View()), f)
      ensures returned <==> old(View()).outstanding == 0
    {
      if mode.Direct? || outstanding == 0 {
        drained.Pass(f);
        return true;
      }
      drained.Sleep(f);
      return false;
    }
  }
}
