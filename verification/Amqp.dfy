/// The AMQP adapter's IO-thread task queue and publisher-confirm table.
///
/// Any thread posts tasks; one IO thread swaps the queue for a batch and runs
/// it. A publish task draws the next delivery tag, files its promise under it
/// when an acknowledgement was asked for, and hands the message to the channel.
/// Acknowledgements and connection errors may come at any moment, also from
/// inside the channel's publish call.

module Amqp {

  // ----- data -----------------------------------------------------------------------------

  /// `Connect` is the task that creates the channel, `Other` what flush and
  /// shutdown post.
  datatype Job = Connect | Publish(ack: bool) | Other

  /// A posted task; its number also names its promise.
  datatype Task = Task(no: nat, job: Job)

  /// An entry of `pending_confirms`.
  datatype Pending = Pending(tag: nat, promise: nat)

  /// A promise given its value.
  datatype Told = Told(promise: nat, ok: bool)

  /// How the channel's publish call ended. One that threw may or may not have
  /// handed the message over.
  datatype Outcome = Accepted | Refused | Threw(handed: bool) {
    predicate Handed() {
      Accepted? || (Threw? && handed)
    }
  }

  /// What happened to tags, in order.
  datatype Event =
    | Drew(tag: nat, ack: bool)
    | Confirm(upTo: nat, multiple: bool, verdict: bool)   // basic.ack or basic.nack
    | Failed(failed: nat)                                 // publish returned false
    | Lost                                                // connection error
  {
    predicate Covers(t: nat) {
      match this
      case Drew(_, _) => false
      case Confirm(n, multiple, _) => if multiple then t <= n else t == n
      case Failed(n) => t == n
      case Lost => true
    }

    predicate Verdict() {
      Confirm? && verdict
    }
  }

  /// Whether the IO thread is inside the channel's publish call, and for which task.
  datatype Flight = Idle | At(task: Task, tag: nat)

  datatype State = State(
    queue: seq<Task>,
    batch: seq<Task>,             // the rest of the batch being run
    flight: Flight,
    channel: bool,
    next: nat,                    // next_delivery_tag
    pending: seq<Pending>,        // in key order, like the std::map
    // what has happened so far
    posted: seq<Task>,
    executed: seq<Task>,
    away: set<nat>,               // publish tasks that never drew a tag
    drawn: seq<Task>,             // tag n went to drawn[n - 1]
    outcomes: seq<Outcome>,
    origin: nat,                  // attempts made before the last channel was created
    received: seq<Task>,          // messages that channel took; its broker numbers them from 1
    told: seq<Told>,
    log: seq<Event>)

  datatype Step =
    | Post(job: Job)
    | Swap
    | RunConnect(made: bool)
    | RunOther
    | RunNoChannel                 // a publish task that finds no channel
    | RunEarlyThrow                // one that throws before drawing its tag
    | RunPublish                   // one that enters the channel's publish call
    | Finish(outcome: Outcome)     // and leaves it
    | Acked(tag: nat, multiple: bool, ok: bool)
    | ConnectionError
    | Shutdown                     // the IO thread has stopped, the channel goes

  // ----- the confirm table -------------------------------------------------------------------

  /// What an event leaves in the table, and what it takes out.
  function Keep(pending: seq<Pending>, e: Event): seq<Pending> {
    if pending == [] then []
    else (if e.Covers(pending[0].tag) then [] else [pending[0]]) + Keep(pending[1..], e)
  }

  /// The promises it settles, in key order.
  function Settles(pending: seq<Pending>, e: Event): seq<Told> {
    if pending == [] then []
    else (if e.Covers(pending[0].tag) then [Told(pending[0].promise, e.Verdict())] else []) + Settles(pending[1..], e)
  }

  function Resolve(s: State, e: Event): State {
    s.(pending := Keep(s.pending, e), told := s.told + Settles(s.pending, e), log := s.log + [e])
  }

  // ----- steps -----------------------------------------------------------------------------------

  /// The IO thread is between two tasks and this is the next.
  predicate NextTask(s: State) {
    s.batch != [] && s.flight.Idle?
  }

  predicate NextPublish(s: State) {
    NextTask(s) && s.batch[0].job.Publish?
  }

  predicate Enabled(s: State, step: Step) {
    match step
    case Post(_) => true
    case Swap => s.batch == [] && s.flight.Idle?
    case RunConnect(_) => NextTask(s) && s.batch[0].job.Connect?
    case RunOther => NextTask(s) && s.batch[0].job.Other?
    case RunNoChannel => NextPublish(s) && !s.channel
    case RunEarlyThrow => NextPublish(s) && s.channel
    case RunPublish => NextPublish(s) && s.channel
    case Finish(_) => s.flight.At?
    case Acked(_, _, _) => true
    case ConnectionError => true
    case Shutdown => s.batch == [] && s.flight.Idle?
  }

  function Take(s: State): State
    requires s.batch != []
  {
    s.(batch := s.batch[1..], executed := s.executed + [s.batch[0]])
  }

  /// A new channel: the broker starts to number its messages at 1 again, while
  /// the next tag and the table stay as they are.
  function NewChannel(s: State): State {
    s.(channel := true, origin := |s.drawn|, received := [])
  }

  /// Its promise, if it has one, is settled with false on the spot.
  function TurnAway(s: State): State
    requires s.batch != [] && s.batch[0].job.Publish?
  {
    var t := s.batch[0];
    Take(s).(away := s.away + {t.no}, told := s.told + (if t.job.ack then [Told(t.no, false)] else []))
  }

  function Draw(s: State): State
    requires s.batch != [] && s.batch[0].job.Publish?
  {
    var t := s.batch[0];
    Take(s).(next := s.next + 1, drawn := s.drawn + [t], flight := At(t, s.next),
             pending := s.pending + (if t.job.ack then [Pending(s.next, t.no)] else []),
             log := s.log + [Drew(s.next, t.job.ack)])
  }

  /// Only a plain refusal settles the promise. After an exception it has already
  /// been moved into the table and stays there.
  function Leave(s: State, outcome: Outcome): State
    requires s.flight.At?
  {
    var s1 := s.(flight := Idle, outcomes := s.outcomes + [outcome],
                 received := if outcome.Handed() then s.received + [s.flight.task] else s.received);
    if outcome.Refused? then Resolve(s1, Failed(s.flight.tag)) else s1
  }

  function Apply(s: State, step: Step): State
    requires Enabled(s, step)
  {
    match step
    case Post(job) =>
      var t := Task(|s.posted|, job);
      s.(queue := s.queue + [t], posted := s.posted + [t])
    case Swap => s.(batch := s.queue, queue := [])
    case RunConnect(made) => if made then NewChannel(Take(s)) else Take(s)
    case RunOther => Take(s)
    case RunNoChannel => TurnAway(s)
    case RunEarlyThrow => TurnAway(s)
    case RunPublish => Draw(s)
    case Finish(outcome) => Leave(s, outcome)
    case Acked(tag, multiple, ok) => Resolve(s, Confirm(tag, multiple, ok))
    case ConnectionError => Resolve(s, Lost)
    case Shutdown => s.(channel := false)
  }

  function Init(): State {
    State([], [], Idle, false, 1, [], [], [], {}, [], [], 0, [], [], [])
  }

  predicate Leads(s: State, steps: seq<Step>, s': State)
    decreases |steps|
  {
    if steps == [] then s == s' else Enabled(s, steps[0]) && Leads(Apply(s, steps[0]), steps[1..], s')
  }

  predicate Reaches(steps: seq<Step>, s: State) {
    Leads(Init(), steps, s)
  }

  // ----- references ---------------------------------------------------------------------------------

  /// What a history says about a tag whose promise was filed.
  datatype Fate = Unborn | Waiting | Settled(ok: bool)

  function FateOf(log: seq<Event>, t: nat): Fate {
    if log == [] then Unborn
    else
      var n := |log| - 1;
      var before := FateOf(log[..n], t);
      var e := log[n];
      if before.Unborn? && e == Drew(t, true) then Waiting
      else if before.Waiting? && e.Covers(t) then Settled(e.Verdict())
      else before
  }

  /// The values given to a promise.
  function Answers(told: seq<Told>, p: nat): seq<bool> {
    if told == [] then [] else (if told[0].promise == p then [told[0].ok] else []) + Answers(told[1..], p)
  }

  /// The publish tasks that drew a tag.
  function DrewTag(ts: seq<Task>, away: set<nat>): seq<Task> {
    if ts == [] then []
    else
      var n := |ts| - 1;
      DrewTag(ts[..n], away) + (if ts[n].job.Publish? && ts[n].no !in away then [ts[n]] else [])
  }

  /// Of the attempts, those the channel took.
  function TakenOf(drawn: seq<Task>, outcomes: seq<Outcome>): seq<Task>
    requires |outcomes| <= |drawn|
  {
    if outcomes == [] then []
    else
      var n := |outcomes| - 1;
      TakenOf(drawn, outcomes[..n]) + (if outcomes[n].Handed() then [drawn[n]] else [])
  }

  // ----- invariant -----------------------------------------------------------------------------------

  ghost predicate QueueInv(s: State) {
    s.executed + s.batch + s.queue == s.posted &&
    (forall i :: 0 <= i < |s.posted| ==> s.posted[i].no == i) &&
    (forall p :: p in s.away ==> p < |s.executed| && s.executed[p].job.Publish?) &&
    s.drawn == DrewTag(s.executed, s.away)
  }

  ghost predicate TagInv(next: nat, flight: Flight, drawn: seq<Task>, outcomes: seq<Outcome>, origin: nat, received: seq<Task>) {
    next == |drawn| + 1 &&
    |drawn| == |outcomes| + (if flight.At? then 1 else 0) &&
    (flight.At? ==> flight == At(drawn[|drawn| - 1], |drawn|)) &&
    origin <= |outcomes| && received == TakenOf(drawn[origin..], outcomes[origin..])
  }

  ghost predicate ByTag(pending: seq<Pending>) {
    forall i, j :: 0 <= i < j < |pending| ==> pending[i].tag < pending[j].tag
  }

  predicate HasTag(pending: seq<Pending>, t: nat) {
    exists i :: 0 <= i < |pending| && pending[i].tag == t
  }

  ghost predicate Filed(pending: seq<Pending>, drawn: seq<Task>) {
    forall i :: 0 <= i < |pending| ==> var x := pending[i]; 1 <= x.tag <= |drawn| && drawn[x.tag - 1] == Task(x.promise, Publish(true))
  }

  predicate Acks(drawn: seq<Task>, t: nat) {
    1 <= t <= |drawn| && drawn[t - 1].job == Publish(true)
  }

  /// The table holds exactly the tags whose promise waits, each with its own.
  ghost predicate TableInv(pending: seq<Pending>, drawn: seq<Task>, log: seq<Event>) {
    ByTag(pending) && Filed(pending, drawn) &&
    (forall t: nat :: FateOf(log, t).Waiting? <==> HasTag(pending, t)) &&
    (forall t: nat :: FateOf(log, t).Unborn? <==> !Acks(drawn, t))
  }

  function AnswerIn(log: seq<Event>, t: nat): seq<bool> {
    match FateOf(log, t) case Settled(ok) => [ok] case _ => []
  }

  predicate WasDrawn(drawn: seq<Task>, p: nat) {
    exists i :: 0 <= i < |drawn| && drawn[i].no == p
  }

  ghost predicate DrawnTold(told: seq<Told>, log: seq<Event>, drawn: seq<Task>) {
    forall i :: 0 <= i < |drawn| ==> Answers(told, drawn[i].no) == AnswerIn(log, i + 1)
  }

  ghost predicate AwayTold(told: seq<Told>, executed: seq<Task>, away: set<nat>) {
    forall p :: p in away ==> p < |executed| && Answers(told, p) == if executed[p].job == Publish(true) then [false] else []
  }

  ghost predicate RestUntold(told: seq<Told>, drawn: seq<Task>, away: set<nat>) {
    forall p :: p !in away && !WasDrawn(drawn, p) ==> Answers(told, p) == []
  }

  /// Every promise has been given the values the history gives it, so at most one.
  ghost predicate ToldInv(told: seq<Told>, log: seq<Event>, drawn: seq<Task>, executed: seq<Task>, away: set<nat>) {
    DrawnTold(told, log, drawn) && AwayTold(told, executed, away) && RestUntold(told, drawn, away)
  }

  ghost predicate Inv(s: State) {
    QueueInv(s) &&
    TagInv(s.next, s.flight, s.drawn, s.outcomes, s.origin, s.received) &&
    TableInv(s.pending, s.drawn, s.log) &&
    ToldInv(s.told, s.log, s.drawn, s.executed, s.away)
  }

  // ----- the queue --------------------------------------------------------------------------------------

  /// Tags go to publish tasks in post order.
  ghost predicate InPostOrder(ts: seq<Task>) {
    forall i, j :: 0 <= i < j < |ts| ==> ts[i].no < ts[j].no
  }

  lemma {:induction false} DrewInOrder(ts: seq<Task>, away: set<nat>)
    requires InPostOrder(ts)
    ensures var d := DrewTag(ts, away);
            InPostOrder(d) && forall t :: t in d <==> t in ts && t.job.Publish? && t.no !in away
  {
    if ts != [] {
      var n := |ts| - 1;
      assert ts == ts[..n] + [ts[n]];
      DrewInOrder(ts[..n], away);
      forall t | t in DrewTag(ts[..n], away) ensures t.no < ts[n].no {
        var j :| 0 <= j < n && ts[..n][j] == t;
      }
    }
  }

  /// A later task cannot change who drew a tag among the earlier ones.
  lemma {:induction false} DrewFrame(ts: seq<Task>, away: set<nat>, p: nat)
    requires forall t :: t in ts ==> t.no != p
    ensures DrewTag(ts, away + {p}) == DrewTag(ts, away)
  {
    if ts != [] {
      DrewFrame(ts[..|ts| - 1], away, p);
    }
  }

  lemma TakeQueue(s: State)
    requires QueueInv(s) && s.batch != []
    ensures s.batch[0].no == |s.executed| && s.batch[0].no !in s.away
    ensures forall i :: 0 <= i < |s.executed| ==> s.executed[i].no == i
    ensures Take(s).executed + Take(s).batch + s.queue == s.posted
  {
    var n := |s.executed|;
    assert s.posted[n] == s.batch[0];
    assert forall i :: 0 <= i < n ==> s.executed[i] == s.posted[i];
    assert s.executed + [s.batch[0]] + s.batch[1..] == s.executed + s.batch;
  }

  lemma TakeDrew(s: State, t: Task)
    ensures DrewTag(s.executed + [t], s.away) == DrewTag(s.executed, s.away) + (if t.job.Publish? && t.no !in s.away then [t] else [])
  {
    assert (s.executed + [t])[..|s.executed|] == s.executed;
  }

  /// The drawn tasks, against the queue.
  lemma DrawnFacts(s: State)
    requires QueueInv(s)
    ensures InPostOrder(s.drawn)
    ensures forall t :: t in s.drawn ==> t.job.Publish? && t.no !in s.away && t.no < |s.executed| && s.executed[t.no] == t
  {
    assert forall i :: 0 <= i < |s.executed| ==> s.executed[i] == s.posted[i];
    DrewInOrder(s.executed, s.away);
  }

  // ----- the table ---------------------------------------------------------------------------------------

  /// An event takes out exactly the tags it covers, a cumulative confirm those
  /// up to its tag, ...
  lemma {:induction false} KeepExactly(pending: seq<Pending>, e: Event, x: Pending)
    ensures x in Keep(pending, e) <==> x in pending && !e.Covers(x.tag)
  {
    if pending != [] {
      KeepExactly(pending[1..], e, x);
      assert pending == [pending[0]] + pending[1..];
    }
  }

  /// ... and keeps the rest in order.
  lemma {:induction false} KeepByTag(pending: seq<Pending>, e: Event)
    requires ByTag(pending)
    ensures ByTag(Keep(pending, e))
  {
    if pending != [] {
      KeepByTag(pending[1..], e);
      var rest := Keep(pending[1..], e);
      forall j | 0 <= j < |rest| ensures pending[0].tag < rest[j].tag {
        KeepExactly(pending[1..], e, rest[j]);
        var k :| 0 <= k < |pending[1..]| && pending[1..][k] == rest[j];
        assert pending[k + 1] == rest[j];
      }
      ByTagCons(pending[0], rest);
    }
  }

  lemma ByTagCons(x: Pending, rest: seq<Pending>)
    requires ByTag(rest) && forall j :: 0 <= j < |rest| ==> x.tag < rest[j].tag
    ensures ByTag([x] + rest)
  {
  }

  lemma KeepFiled(pending: seq<Pending>, drawn: seq<Task>, e: Event)
    requires Filed(pending, drawn)
    ensures Filed(Keep(pending, e), drawn)
  {
    var kept := Keep(pending, e);
    forall i | 0 <= i < |kept| ensures kept[i] in pending {
      KeepExactly(pending, e, kept[i]);
    }
    hide Keep;
  }

  lemma {:induction false} KeepTag(pending: seq<Pending>, e: Event, t: nat)
    ensures HasTag(Keep(pending, e), t) <==> HasTag(pending, t) && !e.Covers(t)
  {
    if pending == [] {
      assert Keep(pending, e) == [];
    } else {
      KeepTag(pending[1..], e, t);
      assert Keep(pending, e) == if e.Covers(pending[0].tag) then Keep(pending[1..], e) else [pending[0]] + Keep(pending[1..], e);
      HasTagCons(pending[0], pending[1..], t);
      HasTagCons(pending[0], Keep(pending[1..], e), t);
      assert pending == [pending[0]] + pending[1..];
    }
  }

  lemma HasTagCons(x: Pending, rest: seq<Pending>, t: nat)
    ensures HasTag([x] + rest, t) <==> x.tag == t || HasTag(rest, t)
  {
    var all := [x] + rest;
    assert all[0] == x && forall i :: 0 <= i < |rest| ==> all[i + 1] == rest[i];
  }

  lemma FateStep(log: seq<Event>, e: Event, t: nat)
    ensures var before := FateOf(log, t);
            FateOf(log + [e], t) == if before.Unborn? && e == Drew(t, true) then Waiting
                                    else if before.Waiting? && e.Covers(t) then Settled(e.Verdict())
                                    else before
  {
    assert (log + [e])[..|log|] == log;
  }

  lemma ResolveTable(pending: seq<Pending>, drawn: seq<Task>, log: seq<Event>, e: Event)
    requires TableInv(pending, drawn, log) && !e.Drew?
    ensures TableInv(Keep(pending, e), drawn, log + [e])
  {
    KeepByTag(pending, e);
    KeepFiled(pending, drawn, e);
    forall t: nat ensures HasTag(Keep(pending, e), t) <==> HasTag(pending, t) && !e.Covers(t) {
      KeepTag(pending, e, t);
    }
    forall t: nat ensures FateOf(log + [e], t) == if FateOf(log, t).Waiting? && e.Covers(t) then Settled(e.Verdict()) else FateOf(log, t) {
      FateStep(log, e, t);
    }
    hide FateOf, Keep, HasTag, Filed, ByTag, Acks, Event.Covers, Event.Verdict;
  }

  lemma DrawTable(pending: seq<Pending>, drawn: seq<Task>, log: seq<Event>, t: Task)
    requires TableInv(pending, drawn, log) && t.job.Publish?
    ensures var n := |drawn| + 1;
            TableInv(pending + (if t.job.ack then [Pending(n, t.no)] else []), drawn + [t], log + [Drew(n, t.job.ack)])
  {
    var n := |drawn| + 1;
    var e := Drew(n, t.job.ack);
    assert FateOf(log, n).Unborn?;
    assert !HasTag(pending, n);
    forall u: nat ensures FateOf(log + [e], u) == if u == n && t.job.ack then Waiting else FateOf(log, u) {
      FateStep(log, e, u);
    }
    DrawAcks(drawn, t);
    DrawFiled(pending, drawn, t);
    hide FateOf, HasTag, Filed, ByTag, Acks;
  }

  lemma DrawAcks(drawn: seq<Task>, t: Task)
    requires t.job.Publish?
    ensures forall u :: Acks(drawn + [t], u) <==> Acks(drawn, u) || (u == |drawn| + 1 && t.job.ack)
  {
  }

  lemma DrawFiled(pending: seq<Pending>, drawn: seq<Task>, t: Task)
    requires ByTag(pending) && Filed(pending, drawn) && t.job.Publish?
    ensures var pending' := pending + (if t.job.ack then [Pending(|drawn| + 1, t.no)] else []);
            ByTag(pending') && Filed(pending', drawn + [t]) &&
            forall u :: HasTag(pending', u) <==> HasTag(pending, u) || (u == |drawn| + 1 && t.job.ack)
  {
    var pending' := pending + (if t.job.ack then [Pending(|drawn| + 1, t.no)] else []);
    assert forall i :: 0 <= i < |pending| ==> pending'[i] == pending[i];
    assert t.job.ack ==> pending'[|pending|].tag == |drawn| + 1;
    forall u | HasTag(pending, u) ensures HasTag(pending', u) {
      var i :| 0 <= i < |pending| && pending[i].tag == u;
      assert pending'[i].tag == u;
    }
  }

  // ----- the promises -------------------------------------------------------------------------------------

  lemma {:induction false} AnswersConcat(a: seq<Told>, b: seq<Told>, p: nat)
    ensures Answers(a + b, p) == Answers(a, p) + Answers(b, p)
  {
    if a == [] {
      assert a + b == b && Answers(a, p) == [];
    } else {
      AnswersConcat(a[1..], b, p);
      assert (a + b)[0] == a[0] && (a + b)[1..] == a[1..] + b;
      var head := if a[0].promise == p then [a[0].ok] else [];
      assert head + (Answers(a[1..], p) + Answers(b, p)) == (head + Answers(a[1..], p)) + Answers(b, p);
    }
  }

  ghost predicate DistinctPromises(pending: seq<Pending>) {
    forall i, j :: 0 <= i < j < |pending| ==> pending[i].promise != pending[j].promise
  }

  lemma {:induction false} SettlesNone(pending: seq<Pending>, e: Event, p: nat)
    requires forall x :: x in pending ==> x.promise != p
    ensures Answers(Settles(pending, e), p) == []
  {
    if pending != [] {
      assert forall x :: x in pending[1..] ==> x in pending;
      SettlesNone(pending[1..], e, p);
      var head := if e.Covers(pending[0].tag) then [Told(pending[0].promise, e.Verdict())] else [];
      AnswersConcat(head, Settles(pending[1..], e), p);
      assert pending[0] in pending;
    }
  }

  lemma {:induction false} SettlesOne(pending: seq<Pending>, e: Event, k: nat)
    requires k < |pending| && DistinctPromises(pending)
    ensures Answers(Settles(pending, e), pending[k].promise) == if e.Covers(pending[k].tag) then [e.Verdict()] else []
  {
    var p := pending[k].promise;
    var head := if e.Covers(pending[0].tag) then [Told(pending[0].promise, e.Verdict())] else [];
    AnswersConcat(head, Settles(pending[1..], e), p);
    if k == 0 {
      SettlesNone(pending[1..], e, p);
      assert Answers([], p) == [];
    } else {
      SettlesOne(pending[1..], e, k - 1);
    }
  }

  /// A promise sits in the table under its task's tag only.
  lemma InTable(pending: seq<Pending>, drawn: seq<Task>, i: nat, k: nat)
    requires Filed(pending, drawn) && InPostOrder(drawn) && i < |drawn| && k < |pending|
    ensures pending[k].promise == drawn[i].no <==> pending[k].tag == i + 1
  {
    var j := pending[k].tag - 1;
    assert drawn[j].no == pending[k].promise;
  }

  lemma PromisesDistinct(pending: seq<Pending>, drawn: seq<Task>)
    requires Filed(pending, drawn) && InPostOrder(drawn) && ByTag(pending)
    ensures DistinctPromises(pending)
  {
    forall i, j | 0 <= i < j < |pending| ensures pending[i].promise != pending[j].promise {
      InTable(pending, drawn, pending[i].tag - 1, j);
    }
  }

  lemma ResolveTold(s: State, e: Event)
    requires ToldInv(s.told, s.log, s.drawn, s.executed, s.away) && TableInv(s.pending, s.drawn, s.log) && !e.Drew?
    requires InPostOrder(s.drawn) && forall t :: t in s.drawn ==> t.no !in s.away
    ensures ToldInv(s.told + Settles(s.pending, e), s.log + [e], s.drawn, s.executed, s.away)
  {
    hide Answers, AnswerIn, Settles, WasDrawn, FateOf, HasTag, InPostOrder, DistinctPromises;
    var more := Settles(s.pending, e);
    PromisesDistinct(s.pending, s.drawn);
    forall i | 0 <= i < |s.drawn| ensures Answers(s.told + more, s.drawn[i].no) == AnswerIn(s.log + [e], i + 1) {
      ResolveOne(s, e, i);
    }
    forall p: nat | p in s.away || !WasDrawn(s.drawn, p) ensures Answers(s.told + more, p) == Answers(s.told, p) {
      NotDrawn(s.drawn, s.away, p);
      ResolveNone(s, e, p);
    }
  }

  lemma NotDrawn(drawn: seq<Task>, away: set<nat>, p: nat)
    requires p in away || !WasDrawn(drawn, p)
    requires forall t :: t in drawn ==> t.no !in away
    ensures forall t :: t in drawn ==> t.no != p
  {
  }

  lemma ResolveNone(s: State, e: Event, p: nat)
    requires Filed(s.pending, s.drawn) && forall t :: t in s.drawn ==> t.no != p
    ensures Answers(s.told + Settles(s.pending, e), p) == Answers(s.told, p)
  {
    AnswersConcat(s.told, Settles(s.pending, e), p);
    forall x | x in s.pending ensures x.promise != p {
      assert s.drawn[x.tag - 1] in s.drawn;
    }
    SettlesNone(s.pending, e, p);
  }

  /// The promise of one drawn task.
  lemma ResolveOne(s: State, e: Event, i: nat)
    requires i < |s.drawn| && Filed(s.pending, s.drawn) && !e.Drew?
    requires FateOf(s.log, i + 1).Waiting? <==> HasTag(s.pending, i + 1)
    requires InPostOrder(s.drawn) && DistinctPromises(s.pending)
    requires Answers(s.told, s.drawn[i].no) == AnswerIn(s.log, i + 1)
    ensures Answers(s.told + Settles(s.pending, e), s.drawn[i].no) == AnswerIn(s.log + [e], i + 1)
  {
    SettledAnswer(s.pending, s.drawn, e, i);
    AnswersConcat(s.told, Settles(s.pending, e), s.drawn[i].no);
    FateStep(s.log, e, i + 1);
    hide Filed, InPostOrder, DistinctPromises, FateOf, Answers, Settles, HasTag;
  }

  lemma SettledAnswer(pending: seq<Pending>, drawn: seq<Task>, e: Event, i: nat)
    requires i < |drawn| && Filed(pending, drawn) && InPostOrder(drawn) && DistinctPromises(pending)
    ensures Answers(Settles(pending, e), drawn[i].no) == if HasTag(pending, i + 1) && e.Covers(i + 1) then [e.Verdict()] else []
  {
    forall k | 0 <= k < |pending| ensures pending[k].promise == drawn[i].no <==> pending[k].tag == i + 1 {
      InTable(pending, drawn, i, k);
    }
    hide Filed, InPostOrder, Answers, Settles;
    if HasTag(pending, i + 1) {
      var k :| 0 <= k < |pending| && pending[k].tag == i + 1;
      SettlesOne(pending, e, k);
    } else {
      SettlesNone(pending, e, drawn[i].no);
    }
  }
}
