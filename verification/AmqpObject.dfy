/// The adapter's Impl object. Each of its functions moves the abstract state
/// exactly as the corresponding steps do.

module AmqpObject {
  import opened Amqp
  import opened AmqpResults

  /// What comes in from outside while one task runs: whether it throws before
  /// drawing its tag, how the channel's publish call ends, which confirms and
  /// errors arrive inside that call and which tasks other threads post.
  datatype Turn = Turn(made: bool, early: bool, outcome: Outcome, inside: seq<Event>, posts: seq<Job>)

  function StepOf(e: Event): Step
    requires e.Confirm? || e.Lost?
  {
    match e
    case Confirm(n, multiple, ok) => Acked(n, multiple, ok)
    case Lost => ConnectionError
  }

  predicate FromOutside(es: seq<Event>) {
    forall i :: 0 <= i < |es| ==> es[i].Confirm? || es[i].Lost?
  }

  // ----- searching the table ----------------------------------------------------------------

  lemma {:induction false} KeepWhole(pending: seq<Pending>, e: Event)
    requires forall i :: 0 <= i < |pending| ==> !e.Covers(pending[i].tag)
    ensures Keep(pending, e) == pending && Settles(pending, e) == []
  {
    if pending != [] { KeepWhole(pending[1..], e); }
  }

  /// An event that covers only the entry at `k`.
  lemma {:induction false} KeepAllBut(pending: seq<Pending>, e: Event, k: nat)
    requires k < |pending| && forall i :: 0 <= i < |pending| ==> (e.Covers(pending[i].tag) <==> i == k)
    ensures Keep(pending, e) == pending[..k] + pending[k + 1..]
    ensures Settles(pending, e) == [Told(pending[k].promise, e.Verdict())]
  {
    if k == 0 {
      KeepWhole(pending[1..], e);
    } else {
      KeepAllBut(pending[1..], e, k - 1);
      assert [pending[0]] + (pending[1..][..k - 1] + pending[1..][k..]) == pending[..k] + pending[k + 1..];
    }
  }

  /// What is still to be kept and settled from position `i` on.
  lemma FromHere(pending: seq<Pending>, i: nat, e: Event)
    requires i < |pending|
    ensures var x := pending[i];
            Keep(pending[i..], e) == (if e.Covers(x.tag) then [] else [x]) + Keep(pending[i + 1..], e) &&
            Settles(pending[i..], e) == (if e.Covers(x.tag) then [Told(x.promise, e.Verdict())] else []) + Settles(pending[i + 1..], e)
  {
    assert pending[i..][1..] == pending[i + 1..];
  }

  lemma Erased(pending: seq<Pending>, i: nat)
    requires i < |pending|
    ensures var rest := pending[..i] + pending[i + 1..]; rest[..i] == pending[..i] && rest[i..] == pending[i + 1..]
  {
  }

  lemma Nothing(e: Event)
    ensures Keep([], e) == [] && Settles([], e) == []
  {
  }

  lemma ToldAssoc(a: seq<Told>, b: seq<Told>, c: seq<Told>)
    ensures a + (b + c) == a + b + c && a + [] == a
  {
  }

  lemma KeptAssoc(a: seq<Pending>, b: seq<Pending>, c: seq<Pending>)
    ensures a + (b + c) == a + b + c && a + [] == a
  {
  }

  class Impl {
    var taskQueue: seq<Task>
    var batch: seq<Task>
    var channel: bool
    var nextDeliveryTag: nat
    var pendingConfirms: seq<Pending>
    var told: seq<Told>          // promises given their value
    var count: nat               // numbers the tasks
    ghost var view: State        // what these amount to, with what has happened

    ghost predicate Shows(s: State)
      reads this
    {
      s.queue == taskQueue && s.batch == batch && s.channel == channel && s.next == nextDeliveryTag &&
      s.pending == pendingConfirms && s.told == told && |s.posted| == count
    }

    ghost predicate Valid()
      reads this
    {
      Inv(view) && Shows(view)
    }

    constructor ()
      ensures Valid() && view == Init()
    {
      taskQueue, batch, channel, nextDeliveryTag, pendingConfirms, told, count := [], [], false, 1, [], [], 0;
      view := Init();
      new;
      InitInv();
    }

    method Post(job: Job)
      requires Valid()
      modifies this
      ensures Valid() && view == Apply(old(view), Step.Post(job))
    {
      hide Inv;
      StepKeepsInv(view, Step.Post(job));
      view := Apply(view, Step.Post(job));
      taskQueue := taskQueue + [Task(count, job)];
      count := count + 1;
    }

    method Find(tag: nat) returns (i: nat)
      ensures i <= |pendingConfirms|
      ensures forall j :: 0 <= j < i ==> pendingConfirms[j].tag != tag
      ensures i < |pendingConfirms| ==> pendingConfirms[i].tag == tag
    {
      i := 0;
      while i < |pendingConfirms| && pendingConfirms[i].tag != tag
        invariant i <= |pendingConfirms|
        invariant forall j :: 0 <= j < i ==> pendingConfirms[j].tag != tag
      {
        i := i + 1;
      }
    }

    /// Settle and erase the entry of one tag, if it is there.
    method SettleOne(tag: nat, ok: bool, ghost e: Event)
      requires ByTag(pendingConfirms) && e.Verdict() == ok && forall t: nat :: e.Covers(t) <==> t == tag
      modifies this`pendingConfirms, this`told
      ensures pendingConfirms == Keep(old(pendingConfirms), e) && told == old(told) + Settles(old(pendingConfirms), e)
    {
      var i := Find(tag);
      if i < |pendingConfirms| {
        KeepAllBut(pendingConfirms, e, i);
        told := told + [Told(pendingConfirms[i].promise, ok)];
        pendingConfirms := pendingConfirms[..i] + pendingConfirms[i + 1..];
      } else {
        KeepWhole(pendingConfirms, e);
        assert told + [] == told;
      }
    }

    /// Settle and erase while iterating over the table.
    method SettleUpTo(tag: nat, ok: bool, ghost e: Event)
      requires e.Verdict() == ok && forall t: nat :: e.Covers(t) <==> t <= tag
      modifies this`pendingConfirms, this`told
      ensures pendingConfirms == Keep(old(pendingConfirms), e) && told == old(told) + Settles(old(pendingConfirms), e)
    {
      hide Keep, Settles;
      ghost var kept, end := Keep(pendingConfirms, e), told + Settles(pendingConfirms, e);
      var i := 0;
      assert pendingConfirms[..0] == [] && pendingConfirms[0..] == pendingConfirms;
      while i < |pendingConfirms|
        invariant i <= |pendingConfirms|
        invariant pendingConfirms[..i] + Keep(pendingConfirms[i..], e) == kept
        invariant told + Settles(pendingConfirms[i..], e) == end
        decreases |pendingConfirms| - i
      {
        var x := pendingConfirms[i];
        FromHere(pendingConfirms, i, e);
        if x.tag <= tag {
          Erased(pendingConfirms, i);
          ToldAssoc(told, [Told(x.promise, ok)], Settles(pendingConfirms[i + 1..], e));
          told := told + [Told(x.promise, ok)];
          pendingConfirms := pendingConfirms[..i] + pendingConfirms[i + 1..];
        } else {
          KeptAssoc(pendingConfirms[..i], [x], Keep(pendingConfirms[i + 1..], e));
          assert pendingConfirms[..i + 1] == pendingConfirms[..i] + [x];
          i := i + 1;
        }
      }
      Nothing(e);
      assert pendingConfirms[i..] == [] && pendingConfirms[..i] == pendingConfirms;
    }

    /// Settle all with false, then clear.
    method FailAll()
      modifies this`pendingConfirms, this`told
      ensures pendingConfirms == Keep(old(pendingConfirms), Lost) && told == old(told) + Settles(old(pendingConfirms), Lost)
    {
      hide Keep, Settles;
      ghost var end := told + Settles(pendingConfirms, Lost);
      KeepNone(pendingConfirms);
      var i := 0;
      assert pendingConfirms[0..] == pendingConfirms;
      while i < |pendingConfirms|
        invariant i <= |pendingConfirms| && pendingConfirms == old(pendingConfirms)
        invariant told + Settles(pendingConfirms[i..], Lost) == end
      {
        FromHere(pendingConfirms, i, Lost);
        ToldAssoc(told, [Told(pendingConfirms[i].promise, false)], Settles(pendingConfirms[i + 1..], Lost));
        told := told + [Told(pendingConfirms[i].promise, false)];
        i := i + 1;
      }
      Nothing(Lost);
      assert pendingConfirms[i..] == [];
      pendingConfirms := [];
    }

    method ResolveConfirm(deliveryTag: nat, multiple: bool, ok: bool)
      requires Valid()
      modifies this
      ensures Valid() && view == Resolve(old(view), Confirm(deliveryTag, multiple, ok))
    {
      hide Inv;
      ghost var e := Confirm(deliveryTag, multiple, ok);
      ResolveKeeps(view, e);
      InTagOrder(view);
      view := Resolve(view, e);
      if multiple {
        SettleUpTo(deliveryTag, ok, e);
      } else {
        SettleOne(deliveryTag, ok, e);
      }
    }

    method OnError()
      requires Valid()
      modifies this
      ensures Valid() && view == Resolve(old(view), Lost)
    {
      hide Inv, Keep, Settles;
      ResolveKeeps(view, Lost);
      view := Resolve(view, Lost);
      FailAll();
    }

    /// No channel, or an exception before the tag: the promise fails at once.
    method TurnAwayHead()
      requires Valid() && NextPublish(view)
      modifies this
      ensures Valid() && view == TurnAway(old(view))
    {
      hide Inv;
      AwayKeeps(view);
      view := TurnAway(view);
      var t := batch[0];
      batch := batch[1..];
      if t.job.ack {
        told := told + [Told(t.no, false)];
      } else {
        assert told + [] == told;
      }
    }

    /// Draw the tag and file the promise under it.
    method DrawHead() returns (tag: nat)
      requires Valid() && NextPublish(view)
      modifies this
      ensures Valid() && view == Draw(old(view)) && tag == view.flight.tag
    {
      hide Inv;
      DrawKeeps(view);
      view := Draw(view);
      var t := batch[0];
      batch := batch[1..];
      tag := nextDeliveryTag;
      nextDeliveryTag := nextDeliveryTag + 1;
      if t.job.ack {
        pendingConfirms := pendingConfirms + [Pending(tag, t.no)];
      } else {
        assert pendingConfirms + [] == pendingConfirms;
      }
    }

    /// The channel's publish call ends.
    method Leave(tag: nat, outcome: Outcome)
      requires Valid() && view.flight.At? && view.flight.tag == tag
      modifies this
      ensures Valid() && view == Amqp.Leave(old(view), outcome)
    {
      hide Inv, Keep, Settles, ByTag;
      LeaveKeeps(view, outcome);
      InTagOrder(view);
      view := Amqp.Leave(view, outcome);
      if outcome.Refused? {
        SettleOne(tag, false, Failed(tag));
      }
    }

    /// The task that dispatch() posts, run as the head of the batch. `turn` is
    /// what comes from outside; `steps` are the steps it amounts to.
    method PublishTask(turn: Turn) returns (ghost steps: seq<Step>)
      requires Valid() && NextPublish(view) && FromOutside(turn.inside)
      modifies this
      ensures Valid() && Leads(old(view), steps, view)
      ensures view.flight.Idle? && RanHead(old(view), view)
    {
      hide Inv;
      ghost var s0 := view;
      if !channel || turn.early {
        ghost var step := if channel then RunEarlyThrow else RunNoChannel;
        OneStep(s0, step);
        steps := [step];
        TurnAwayHead();
        return;
      }
      OneStep(s0, RunPublish);
      steps := [RunPublish];
      var tag := DrawHead();
      hide Leads;
      steps := Arrive(turn.inside, s0, steps);
      LeadsSnoc(s0, steps, view, Finish(turn.outcome));
      steps := steps + [Finish(turn.outcome)];
      Leave(tag, turn.outcome);
    }

    /// Confirms and errors coming in while the channel publishes.
    method Arrive(inside: seq<Event>, ghost s0: State, ghost steps: seq<Step>) returns (ghost steps': seq<Step>)
      requires Valid() && FromOutside(inside) && Leads(s0, steps, view)
      modifies this
      ensures Valid() && Leads(s0, steps', view)
      ensures view.flight == old(view).flight && SameTasks(old(view), view)
    {
      hide Inv, Leads;
      steps' := steps;
      var i := 0;
      while i < |inside|
        invariant i <= |inside| && Valid() && Leads(s0, steps', view)
        invariant view.flight == old(view).flight && SameTasks(old(view), view)
      {
        LeadsSnoc(s0, steps', view, StepOf(inside[i]));
        steps' := steps' + [StepOf(inside[i])];
        match inside[i] {
          case Confirm(n, multiple, ok) => ResolveConfirm(n, multiple, ok);
          case Lost => OnError();
        }
        i := i + 1;
      }
    }

    /// Tasks other threads post while this thread runs one.
    method PostAll(jobs: seq<Job>, ghost s0: State, ghost steps: seq<Step>) returns (ghost steps': seq<Step>, ghost posts: seq<Task>)
      requires Valid() && Leads(s0, steps, view)
      modifies this
      ensures Valid() && Leads(s0, steps', view)
      ensures view.queue == old(view).queue + posts && view.posted == old(view).posted + posts
      ensures view.batch == old(view).batch && view.flight == old(view).flight && view.executed == old(view).executed
    {
      hide Inv, Leads;
      steps', posts := steps, [];
      var i := 0;
      while i < |jobs|
        invariant i <= |jobs| && Valid() && Leads(s0, steps', view)
        invariant view.queue == old(view).queue + posts && view.posted == old(view).posted + posts
        invariant view.batch == old(view).batch && view.flight == old(view).flight && view.executed == old(view).executed
      {
        LeadsSnoc(s0, steps', view, Step.Post(jobs[i]));
        steps', posts := steps' + [Step.Post(jobs[i])], posts + [Task(count, jobs[i])];
        Post(jobs[i]);
        i := i + 1;
      }
    }

    /// A task that is no publish, at the head of the batch. The connect task
    /// replaces the channel, if it gets that far.
    method OtherTask(turn: Turn, ghost s0: State, ghost steps: seq<Step>) returns (ghost steps': seq<Step>)
      requires Valid() && NextTask(view) && !batch[0].job.Publish? && Leads(s0, steps, view)
      modifies this
      ensures Valid() && Leads(s0, steps', view)
      ensures view.flight.Idle? && RanHead(old(view), view)
    {
      hide Inv, Leads;
      ghost var step := if batch[0].job.Connect? then RunConnect(turn.made) else RunOther;
      StepKeepsInv(view, step);
      LeadsSnoc(s0, steps, view, step);
      steps' := steps + [step];
      view := Apply(view, step);
      if batch[0].job.Connect? && turn.made {
        channel := true;
      }
      batch := batch[1..];
    }

    /// One turn of the loop over the batch.
    method RunHead(turn: Turn, ghost s0: State, ghost steps: seq<Step>) returns (ghost steps': seq<Step>, ghost posts: seq<Task>)
      requires Valid() && NextTask(view) && FromOutside(turn.inside) && Leads(s0, steps, view)
      modifies this
      ensures Valid() && Leads(s0, steps', view)
      ensures view.flight.Idle? && |view.batch| == |old(view).batch| - 1
      ensures view.executed + view.batch == old(view).executed + old(view).batch
      ensures view.queue == old(view).queue + posts && view.posted == old(view).posted + posts
    {
      hide Inv, Leads;
      steps', posts := PostAll(turn.posts, s0, steps);
      assert batch == [batch[0]] + batch[1..];
      if batch[0].job.Publish? {
        ghost var s1 := view;
        ghost var more := PublishTask(turn);
        LeadsJoin(s0, steps', s1, more, view);
        steps' := steps' + more;
      } else {
        steps' := OtherTask(turn, s0, steps');
      }
    }

    /// shutdown(), once the IO thread has stopped: the channel goes, the next tag
    /// and the table stay.
    method Shutdown()
      requires Valid() && batch == [] && view.flight.Idle?
      modifies this
      ensures Valid() && view == Apply(old(view), Step.Shutdown)
    {
      hide Inv;
      StepKeepsInv(view, Step.Shutdown);
      view := Apply(view, Step.Shutdown);
      channel := false;
    }

    method SwapQueue() returns (ghost steps: seq<Step>)
      requires Valid() && batch == [] && view.flight.Idle?
      modifies this
      ensures Valid() && Leads(old(view), steps, view) && view == Apply(old(view), Swap)
    {
      hide Inv;
      StepKeepsInv(view, Swap);
      OneStep(view, Swap);
      steps := [Swap];
      view := Apply(view, Swap);
      batch, taskQueue := taskQueue, [];
    }

    /// One batch: everything queued when it starts runs, in order, and what is
    /// posted meanwhile stays queued for the next.
    method DrainTasks(turns: seq<Turn>) returns (ghost steps: seq<Step>)
      requires Valid() && batch == [] && view.flight.Idle? && |turns| == |taskQueue|
      requires forall i :: 0 <= i < |turns| ==> FromOutside(turns[i].inside)
      modifies this
      ensures Valid() && Leads(old(view), steps, view)
      ensures batch == [] && view.flight.Idle? && view.executed == old(view).executed + old(taskQueue)
      ensures view.posted == old(view).posted + taskQueue
    {
      hide Inv, Leads, FromOutside;
      ghost var s0 := view;
      steps := SwapQueue();
      var i := 0;
      while batch != []
        invariant Valid() && Leads(s0, steps, view)
        invariant i + |batch| == |turns| && view.flight.Idle?
        invariant view.executed + view.batch == old(view).executed + old(taskQueue)
        invariant view.posted == old(view).posted + taskQueue
        decreases |batch|
      {
        ghost var posts;
        steps, posts := RunHead(turns[i], s0, steps);
        i := i + 1;
      }
    }
  }

  /// The tasks are where they were.
  predicate SameTasks(s: State, s': State) {
    s'.batch == s.batch && s'.executed == s.executed && s'.posted == s.posted && s'.queue == s.queue
  }

  /// The head of the batch has run.
  predicate RanHead(s: State, s': State)
    requires s.batch != []
  {
    s'.batch == s.batch[1..] && s'.executed == s.executed + [s.batch[0]] && s'.posted == s.posted && s'.queue == s.queue
  }

  lemma {:induction false} LeadsJoin(s: State, steps: seq<Step>, s1: State, more: seq<Step>, s2: State)
    requires Leads(s, steps, s1) && Leads(s1, more, s2)
    ensures Leads(s, steps + more, s2)
    decreases |steps|
  {
    hide Apply, Enabled;
    if steps == [] {
      assert steps + more == more;
    } else {
      LeadsJoin(Apply(s, steps[0]), steps[1..], s1, more, s2);
      assert (steps + more)[1..] == steps[1..] + more;
    }
  }

  lemma InTagOrder(s: State)
    requires Inv(s)
    ensures ByTag(s.pending)
  {
  }

  lemma OneStep(s: State, step: Step)
    requires Enabled(s, step)
    ensures Leads(s, [step], Apply(s, step))
  {
    assert [step][1..] == [];
  }
}
