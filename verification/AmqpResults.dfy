/// What holds of the adapter after any run: tasks run in post order, tags are
/// fresh and given in that order, and every promise gets the verdict of the
/// first event covering its tag, once.

module AmqpResults {
  import opened Amqp

  // ----- every step keeps the invariant ----------------------------------------------------

  lemma PostKeeps(s: State, job: Job)
    requires QueueInv(s)
    ensures QueueInv(Apply(s, Post(job)))
  {
    var t := Task(|s.posted|, job);
    assert s.executed + s.batch + (s.queue + [t]) == s.executed + s.batch + s.queue + [t];
  }

  lemma SwapKeeps(s: State)
    requires Enabled(s, Swap) && QueueInv(s)
    ensures QueueInv(Apply(s, Swap))
  {
    assert s.executed + s.queue + [] == s.executed + s.batch + s.queue;
  }

  /// A task that is no publish.
  lemma TakeKeeps(s: State)
    requires s.batch != [] && !s.batch[0].job.Publish? && Inv(s)
    ensures QueueInv(Take(s)) && ToldInv(s.told, s.log, s.drawn, Take(s).executed, s.away)
  {
    TakeQueue(s);
    TakeDrew(s, s.batch[0]);
    MoreExecuted(s.told, s.executed, s.away, s.batch[0]);
    hide DrewTag, DrawnTold, AwayTold, RestUntold;
  }

  lemma AwayQueue(s: State)
    requires s.batch != [] && s.batch[0].job.Publish? && QueueInv(s)
    ensures QueueInv(TurnAway(s))
  {
    var t := s.batch[0];
    TakeQueue(s);
    assert DrewTag(s.executed + [t], s.away + {t.no}) == s.drawn by {
      assert (s.executed + [t])[..|s.executed|] == s.executed;
      DrewFrame(s.executed, s.away, t.no);
    }
    hide DrewTag;
  }

  lemma MoreExecuted(told: seq<Told>, executed: seq<Task>, away: set<nat>, t: Task)
    requires AwayTold(told, executed, away)
    ensures AwayTold(told, executed + [t], away)
  {
    hide Answers;
  }

  lemma AwayTells(s: State)
    requires s.batch != [] && s.batch[0].job.Publish? && Inv(s)
    ensures var s' := TurnAway(s); ToldInv(s'.told, s'.log, s'.drawn, s'.executed, s'.away)
  {
    var t := s.batch[0];
    TakeQueue(s);
    DrawnFacts(s);
    MoreExecuted(s.told, s.executed, s.away, t);
    FreshTask(s, t);
    AwayMore(s.told, s.log, s.drawn, s.executed + [t], s.away, t.no, t.job.ack);
    hide QueueInv, TableInv, TagInv, DrawnTold, AwayTold, RestUntold;
  }

  /// The next task has drawn nothing yet.
  lemma FreshTask(s: State, t: Task)
    requires t.no == |s.executed| && forall u :: u in s.drawn ==> u.no < |s.executed|
    ensures forall i :: 0 <= i < |s.drawn| ==> s.drawn[i].no != t.no
  {
    assert forall i :: 0 <= i < |s.drawn| ==> s.drawn[i] in s.drawn;
  }

  lemma AwayMore(told: seq<Told>, log: seq<Event>, drawn: seq<Task>, executed: seq<Task>, away: set<nat>, q: nat, ack: bool)
    requires DrawnTold(told, log, drawn) && AwayTold(told, executed, away) && RestUntold(told, drawn, away)
    requires q < |executed| && executed[q].job == Publish(ack) && q !in away
    requires forall i :: 0 <= i < |drawn| ==> drawn[i].no != q
    ensures ToldInv(told + (if ack then [Told(q, false)] else []), log, drawn, executed, away + {q})
  {
    hide Answers, AnswerIn;
    var told' := told + (if ack then [Told(q, false)] else []);
    forall p: nat ensures Answers(told', p) == if p == q && ack then Answers(told, p) + [false] else Answers(told, p) {
      MoreAnswers(told, q, ack, p);
    }
    assert Answers(told, q) == [] by { assert !WasDrawn(drawn, q); }
    hide WasDrawn;
    assert DrawnTold(told', log, drawn);
    assert AwayTold(told', executed, away + {q});
    assert RestUntold(told', drawn, away + {q});
  }

  lemma MoreAnswers(told: seq<Told>, q: nat, ack: bool, p: nat)
    ensures Answers(told + (if ack then [Told(q, false)] else []), p) ==
            if p == q && ack then Answers(told, p) + [false] else Answers(told, p)
  {
    AnswersConcat(told, if ack then [Told(q, false)] else [], p);
    OneAnswer(q, false, p);
  }

  lemma OneAnswer(q: nat, ok: bool, p: nat)
    ensures Answers([Told(q, ok)], p) == (if p == q then [ok] else []) && Answers([], p) == []
  {
    assert [Told(q, ok)][1..] == [];
  }

  lemma DrawQueue(s: State)
    requires s.batch != [] && s.batch[0].job.Publish? && QueueInv(s)
    ensures QueueInv(Draw(s))
  {
    TakeQueue(s);
    TakeDrew(s, s.batch[0]);
    hide DrewTag;
  }

  lemma DrawTags(s: State)
    requires NextPublish(s) && TagInv(s.next, s.flight, s.drawn, s.outcomes, s.origin, s.received)
    ensures var s' := Draw(s); TagInv(s'.next, s'.flight, s'.drawn, s'.outcomes, s'.origin, s'.received)
  {
    TakenFrame(s.drawn[s.origin..], s.outcomes[s.origin..], s.batch[0]);
    assert (s.drawn + [s.batch[0]])[s.origin..] == s.drawn[s.origin..] + [s.batch[0]];
    hide TakenOf;
  }

  lemma {:induction false} TakenFrame(drawn: seq<Task>, outcomes: seq<Outcome>, t: Task)
    requires |outcomes| <= |drawn|
    ensures TakenOf(drawn + [t], outcomes) == TakenOf(drawn, outcomes)
    decreases |outcomes|
  {
    if outcomes != [] {
      TakenFrame(drawn, outcomes[..|outcomes| - 1], t);
    }
  }

  lemma DrawTells(s: State)
    requires s.batch != [] && s.batch[0].job.Publish? && Inv(s)
    ensures var s' := Draw(s); ToldInv(s'.told, s'.log, s'.drawn, s'.executed, s'.away)
  {
    hide QueueInv, DrawnTold, AwayTold, RestUntold, FateOf, Acks;
    var t := s.batch[0];
    TakeQueue(s);
    DrawnFacts(s);
    MoreExecuted(s.told, s.executed, s.away, t);
    FreshTask(s, t);
    DrawnMore(s.told, s.log, s.drawn, s.away, t);
  }

  lemma DrawnMore(told: seq<Told>, log: seq<Event>, drawn: seq<Task>, away: set<nat>, t: Task)
    requires DrawnTold(told, log, drawn) && RestUntold(told, drawn, away)
    requires t.job.Publish? && t.no !in away && forall i :: 0 <= i < |drawn| ==> drawn[i].no != t.no
    requires forall u: nat :: FateOf(log, u).Unborn? <==> !Acks(drawn, u)
    ensures DrawnTold(told, log + [Drew(|drawn| + 1, t.job.ack)], drawn + [t]) && RestUntold(told, drawn + [t], away)
  {
    var e := Drew(|drawn| + 1, t.job.ack);
    assert Answers(told, t.no) == [];
    forall i | 0 <= i < |drawn| + 1 ensures Answers(told, (drawn + [t])[i].no) == AnswerIn(log + [e], i + 1) {
      FateStep(log, e, i + 1);
      assert i == |drawn| ==> !Acks(drawn, i + 1);
    }
    forall p | WasDrawn(drawn, p) ensures WasDrawn(drawn + [t], p) {
      DrawnOne(drawn, t, p);
    }
    DrawnOne(drawn, t, t.no);
    hide Answers, FateOf, AnswerIn, WasDrawn;
  }

  lemma DrawnOne(drawn: seq<Task>, t: Task, p: nat)
    ensures WasDrawn(drawn + [t], p) <==> WasDrawn(drawn, p) || p == t.no
  {
    var all := drawn + [t];
    assert all[|drawn|] == t && forall i :: 0 <= i < |drawn| ==> all[i] == drawn[i];
  }

  lemma ResolveKeeps(s: State, e: Event)
    requires Inv(s) && !e.Drew?
    ensures Inv(Resolve(s, e))
  {
    DrawnFacts(s);
    ResolveTable(s.pending, s.drawn, s.log, e);
    ResolveTold(s, e);
    hide QueueInv, TagInv, TableInv, ToldInv;
  }

  lemma FinishTags(s: State, outcome: Outcome)
    requires s.flight.At? && TagInv(s.next, s.flight, s.drawn, s.outcomes, s.origin, s.received)
    ensures TagInv(s.next, Idle, s.drawn, s.outcomes + [outcome], s.origin, if outcome.Handed() then s.received + [s.flight.task] else s.received)
  {
    var done := s.outcomes[s.origin..];
    assert (s.outcomes + [outcome])[s.origin..] == done + [outcome] && (done + [outcome])[..|done|] == done;
    assert s.drawn[s.origin..][|done|] == s.flight.task;
  }

  lemma StepKeepsInv(s: State, step: Step)
    requires Enabled(s, step) && Inv(s)
    ensures Inv(Apply(s, step))
  {
    hide QueueInv, ToldInv, TableInv, TagInv, Resolve;
    match step
    case Post(job) => PostKeeps(s, job); PostFrame(s, job);
    case Swap => SwapKeeps(s);
    case RunConnect(made) => TakeKeeps(s); ChannelKeeps(Take(s));
    case RunOther => TakeKeeps(s);
    case RunNoChannel => AwayKeeps(s);
    case RunEarlyThrow => AwayKeeps(s);
    case RunPublish => DrawKeeps(s);
    case Finish(outcome) => LeaveKeeps(s, outcome);
    case Acked(tag, multiple, ok) => ResolveKeeps(s, Confirm(tag, multiple, ok));
    case ConnectionError => ResolveKeeps(s, Lost);
    case Shutdown => SameQueue(s, s.(channel := false));
  }

  lemma PostFrame(s: State, job: Job)
    ensures var s' := Apply(s, Post(job));
            s'.told == s.told && s'.log == s.log && s'.drawn == s.drawn && s'.executed == s.executed && s'.away == s.away &&
            s'.pending == s.pending && s'.next == s.next && s'.flight == s.flight && s'.outcomes == s.outcomes && s'.origin == s.origin && s'.received == s.received
  {
  }

  lemma SameQueue(s: State, s': State)
    requires QueueInv(s) && s'.executed == s.executed && s'.batch == s.batch && s'.queue == s.queue
    requires s'.posted == s.posted && s'.away == s.away && s'.drawn == s.drawn
    ensures QueueInv(s')
  {
  }

  lemma ChannelKeeps(s: State)
    requires QueueInv(s) && s.flight.Idle? && TagInv(s.next, s.flight, s.drawn, s.outcomes, s.origin, s.received)
    ensures var s' := NewChannel(s);
            QueueInv(s') && TagInv(s'.next, s'.flight, s'.drawn, s'.outcomes, s'.origin, s'.received)
  {
  }

  lemma AwayKeeps(s: State)
    requires s.batch != [] && s.batch[0].job.Publish? && Inv(s)
    ensures Inv(TurnAway(s))
  {
    AwayQueue(s);
    AwayTells(s);
    hide QueueInv, ToldInv, TableInv, TagInv;
  }

  lemma LeaveKeeps(s: State, outcome: Outcome)
    requires s.flight.At? && Inv(s)
    ensures Inv(Leave(s, outcome))
  {
    hide QueueInv, ToldInv, TableInv, TagInv, Resolve;
    FinishTags(s, outcome);
    var s1 := s.(flight := Idle, outcomes := s.outcomes + [outcome],
                 received := if outcome.Handed() then s.received + [s.flight.task] else s.received);
    SameQueue(s, s1);
    if outcome.Refused? { ResolveKeeps(s1, Failed(s.flight.tag)); }
  }

  lemma DrawKeeps(s: State)
    requires NextPublish(s) && Inv(s)
    ensures Inv(Draw(s))
  {
    DrawQueue(s);
    DrawTags(s);
    assert s.next == |s.drawn| + 1;
    DrawTable(s.pending, s.drawn, s.log, s.batch[0]);
    DrawTells(s);
    hide QueueInv, ToldInv, TableInv, TagInv;
  }

  lemma {:induction false} LeadsKeepsInv(s: State, steps: seq<Step>, s': State)
    requires Inv(s) && Leads(s, steps, s')
    ensures Inv(s')
    decreases |steps|
  {
    hide Inv, Apply;
    if steps != [] {
      StepKeepsInv(s, steps[0]);
      LeadsKeepsInv(Apply(s, steps[0]), steps[1..], s');
    }
  }

  lemma InitInv()
    ensures Inv(Init())
  {
    assert forall t :: !HasTag([], t);
    assert forall t :: !Acks([], t);
    hide HasTag, Acks;
  }

  lemma ReachesInv(steps: seq<Step>, s: State)
    requires Reaches(steps, s)
    ensures Inv(s)
  {
    hide Inv;
    InitInv();
    LeadsKeepsInv(Init(), steps, s);
  }

  // ----- the task queue -------------------------------------------------------------------------

  /// Tasks run in post order, none lost and none doubled; so tags go out in
  /// post order, 1, 2, 3, ..., to exactly the publish tasks that were not turned
  /// away, whether they asked for an acknowledgement or not.
  lemma TagsInPostOrder(steps: seq<Step>, s: State)
    requires Reaches(steps, s)
    ensures s.executed + s.batch + s.queue == s.posted
    ensures s.next == |s.drawn| + 1 && InPostOrder(s.drawn)
    ensures forall t :: t in s.drawn <==> t in s.executed && t.job.Publish? && t.no !in s.away
    ensures forall e :: e in s.pending ==> 1 <= e.tag < s.next
  {
    ReachesInv(steps, s);
    var ts := s.executed;
    assert forall i :: 0 <= i < |ts| ==> ts[i] == s.posted[i];
    DrewInOrder(ts, s.away);
  }

  // ----- settlement ------------------------------------------------------------------------------

  predicate FirstDraw(log: seq<Event>, t: nat, i: nat) {
    i < |log| && log[i] == Drew(t, true) && forall k :: 0 <= k < i ==> log[k] != Drew(t, true)
  }

  predicate Uncovered(log: seq<Event>, t: nat, i: nat) {
    forall k :: i < k < |log| ==> !log[k].Covers(t)
  }

  /// Event `j` is the first after the draw to cover the tag.
  predicate FirstCover(log: seq<Event>, t: nat, i: nat, j: nat) {
    i < j < |log| && FirstDraw(log, t, i) && log[j].Covers(t) && forall k :: i < k < j ==> !log[k].Covers(t)
  }

  /// A tag's fate is decided by the first event that covers it.
  ghost predicate Means(log: seq<Event>, t: nat) {
    match FateOf(log, t)
    case Unborn => forall i :: 0 <= i < |log| ==> log[i] != Drew(t, true)
    case Waiting => exists i: nat :: FirstDraw(log, t, i) && Uncovered(log, t, i)
    case Settled(ok) => exists i: nat, j: nat :: FirstCover(log, t, i, j) && log[j].Verdict() == ok
  }

  lemma {:induction false} FateMeans(log: seq<Event>, t: nat)
    ensures Means(log, t)
  {
    if log != [] {
      var n := |log| - 1;
      FateMeans(log[..n], t);
      MeansStep(log, t);
    }
  }

  lemma MeansStep(log: seq<Event>, t: nat)
    requires log != [] && Means(log[..|log| - 1], t)
    ensures Means(log, t)
  {
    var n := |log| - 1;
    var front := log[..n];
    assert forall k :: 0 <= k < n ==> front[k] == log[k];
    match FateOf(front, t)
    case Unborn =>
      if log[n] == Drew(t, true) { assert FirstDraw(log, t, n) && Uncovered(log, t, n); }
    case Waiting =>
      var i: nat :| FirstDraw(front, t, i) && Uncovered(front, t, i);
      assert FirstDraw(log, t, i);
      if log[n].Covers(t) { assert FirstCover(log, t, i, n); } else { assert Uncovered(log, t, i); }
    case Settled(ok) =>
      var i: nat, j: nat :| FirstCover(front, t, i, j) && front[j].Verdict() == ok;
      assert FirstCover(log, t, i, j);
  }

  /// A promise filed under tag `t` is in the table until the first event after
  /// its draw that covers the tag, and from then on has that event's verdict
  /// and no other: true for an ack, false for a nack, a refusal by the channel
  /// or a lost connection.
  lemma VerdictOfFirstCover(steps: seq<Step>, s: State, t: nat)
    requires Reaches(steps, s) && Acks(s.drawn, t)
    ensures var answers := Answers(s.told, s.drawn[t - 1].no);
            if HasTag(s.pending, t)
            then answers == [] && exists i: nat :: FirstDraw(s.log, t, i) && Uncovered(s.log, t, i)
            else exists i: nat, j: nat :: FirstCover(s.log, t, i, j) &&
                      answers == match s.log[j] { case Confirm(_, _, ok) => [ok] case _ => [false] }
  {
    ReachesInv(steps, s);
    FateMeans(s.log, t);
    assert !FateOf(s.log, t).Unborn?;
    assert Answers(s.told, s.drawn[t - 1].no) == AnswerIn(s.log, t);
    hide FateOf, Answers, QueueInv;
  }

  /// Conservation: a promise whose task has run is either filed and unanswered
  /// or answered exactly once; one whose task has not run is neither.
  lemma EachPromiseOnce(steps: seq<Step>, s: State, p: nat)
    requires Reaches(steps, s)
    ensures |Answers(s.told, p)| <= 1
    ensures p < |s.executed| && s.executed[p].job == Publish(true) ==>
              ((exists e :: e in s.pending && e.promise == p) <==> Answers(s.told, p) == [])
    ensures !(p < |s.executed| && s.executed[p].job == Publish(true)) ==>
              Answers(s.told, p) == [] && forall e :: e in s.pending ==> e.promise != p
  {
    ReachesInv(steps, s);
    DrawnFacts(s);
    FiledRan(s);
    if WasDrawn(s.drawn, p) {
      var i :| 0 <= i < |s.drawn| && s.drawn[i].no == p;
      assert s.drawn[i] in s.drawn;
      DrawnPromise(s, i);
    } else if p < |s.executed| && s.executed[p].job == Publish(true) {
      RanPublish(s, p);
    }
    hide FateOf, Answers, DrewTag, TakenOf, Filed, ByTag;
  }

  lemma FiledRan(s: State)
    requires Filed(s.pending, s.drawn)
    ensures forall e :: e in s.pending ==> Task(e.promise, Publish(true)) in s.drawn && WasDrawn(s.drawn, e.promise)
  {
    forall e | e in s.pending ensures Task(e.promise, Publish(true)) in s.drawn && WasDrawn(s.drawn, e.promise) {
      assert s.drawn[e.tag - 1] == Task(e.promise, Publish(true));
    }
  }

  lemma DrawnPromise(s: State, i: nat)
    requires i < |s.drawn| && Inv(s) && InPostOrder(s.drawn)
    ensures var p := s.drawn[i].no;
            |Answers(s.told, p)| <= 1 &&
            (s.drawn[i].job == Publish(true) ==> ((exists e :: e in s.pending && e.promise == p) <==> Answers(s.told, p) == [])) &&
            (s.drawn[i].job != Publish(true) ==> Answers(s.told, p) == [])
  {
    var p := s.drawn[i].no;
    assert Answers(s.told, p) == AnswerIn(s.log, i + 1);
    assert FateOf(s.log, i + 1).Waiting? <==> HasTag(s.pending, i + 1);
    assert FateOf(s.log, i + 1).Unborn? <==> !Acks(s.drawn, i + 1);
    forall k | 0 <= k < |s.pending| ensures s.pending[k].promise == p <==> s.pending[k].tag == i + 1 {
      InTable(s.pending, s.drawn, i, k);
    }
    hide Answers, FateOf, QueueInv, TagInv;
  }

  /// A publish task that ran without drawing a tag was turned away.
  lemma RanPublish(s: State, p: nat)
    requires QueueInv(s) && !WasDrawn(s.drawn, p) && p < |s.executed| && s.executed[p].job.Publish?
    ensures p in s.away
  {
    assert s.executed[p] == s.posted[p];
    assert forall i :: 0 <= i < |s.executed| ==> s.executed[i] == s.posted[i];
    DrewInOrder(s.executed, s.away);
    assert s.executed[p] !in s.drawn;
  }

  /// A publish task that drew no tag because there was no channel, or because it
  /// threw first: its promise is told false at once.
  lemma TurnedAwayFails(steps: seq<Step>, s: State, step: Step)
    requires Enabled(s, step) && (step.RunNoChannel? || step.RunEarlyThrow?) && Reaches(steps, s)
    ensures var s', t := Apply(s, step), s.batch[0];
            s'.pending == s.pending && s'.next == s.next && s'.drawn == s.drawn &&
            Answers(s'.told, t.no) == (if t.job.ack then [false] else []) &&
            forall p: nat :: p != t.no ==> Answers(s'.told, p) == Answers(s.told, p)
  {
    var t := s.batch[0];
    NotYetAnswered(steps, s);
    forall p: nat ensures Answers(TurnAway(s).told, p) == if p == t.no && t.job.ack then Answers(s.told, p) + [false] else Answers(s.told, p) {
      MoreAnswers(s.told, t.no, t.job.ack, p);
      assert s.told + [] == s.told;
    }
    hide Answers, Reaches;
  }

  lemma NotYetAnswered(steps: seq<Step>, s: State)
    requires s.batch != [] && Reaches(steps, s)
    ensures Answers(s.told, s.batch[0].no) == []
  {
    ReachesInv(steps, s);
    TakeQueue(s);
    EachPromiseOnce(steps, s, s.batch[0].no);
  }

  /// A cumulative confirm takes out exactly the keys up to its tag and gives
  /// their promises its verdict; a single one its own key; tag 0 none.
  lemma ConfirmTakes(steps: seq<Step>, s: State, n: nat, multiple: bool, ok: bool, e: Pending)
    requires e in s.pending && Reaches(steps, s)
    ensures var s' := Apply(s, Acked(n, multiple, ok));
            var hit := if multiple then e.tag <= n else e.tag == n;
            (e in s'.pending <==> !hit) &&
            Answers(s'.told, e.promise) == (if hit then [ok] else []) &&
            (hit ==> n != 0)
  {
    hide Inv, Reaches, Answers, Settles, Keep;
    var c := Confirm(n, multiple, ok);
    KeepExactly(s.pending, c, e);
    FiledUnanswered(steps, s, e);
    FiledSettles(steps, s, e, c);
    AnswersConcat(s.told, Settles(s.pending, c), e.promise);
  }

  lemma FiledUnanswered(steps: seq<Step>, s: State, e: Pending)
    requires e in s.pending && Reaches(steps, s)
    ensures Answers(s.told, e.promise) == [] && e.tag != 0
  {
    ReachesInv(steps, s);
    assert Acks(s.drawn, e.tag) && HasTag(s.pending, e.tag);
    assert Answers(s.told, s.drawn[e.tag - 1].no) == AnswerIn(s.log, e.tag);
    hide Answers, FateOf, QueueInv, TagInv;
  }

  lemma FiledSettles(steps: seq<Step>, s: State, e: Pending, c: Event)
    requires e in s.pending && Reaches(steps, s)
    ensures Answers(Settles(s.pending, c), e.promise) == if c.Covers(e.tag) then [c.Verdict()] else []
  {
    hide TagInv, ToldInv, FateOf, Answers, Settles;
    ReachesInv(steps, s);
    DrawnFacts(s);
    var k :| 0 <= k < |s.pending| && s.pending[k] == e;
    PromisesDistinct(s.pending, s.drawn);
    SettlesOne(s.pending, c, k);
  }

  /// What the end of the channel's publish call does to the attempt's own
  /// promise: a refusal answers it with false if it is still filed; after
  /// success or an exception it stays filed, or as it was answered meanwhile. So
  /// an exception leaves a filed promise to later events.
  lemma LeaveAnswers(steps: seq<Step>, s: State, outcome: Outcome)
    requires s.flight.At? && s.flight.task.job == Publish(true) && Reaches(steps, s)
    ensures var s' := Apply(s, Finish(outcome));
            var p, filed := s.flight.task.no, HasTag(s.pending, s.flight.tag);
            Answers(s'.told, p) == (if filed && outcome.Refused? then [false] else Answers(s.told, p)) &&
            (Answers(s'.told, p) == [] <==> filed && !outcome.Refused?) &&
            (HasTag(s'.pending, s.flight.tag) <==> filed && !outcome.Refused?)
  {
    hide Inv, Reaches, Answers, Settles, Keep, HasTag;
    var tag := s.flight.tag;
    FlightAnswer(steps, s);
    if outcome.Refused? {
      FlightSettles(steps, s, Failed(tag));
      AnswersConcat(s.told, Settles(s.pending, Failed(tag)), s.flight.task.no);
      KeepTag(s.pending, Failed(tag), tag);
    }
  }

  /// It touches no other promise: not in the table and not its answer.
  lemma LeaveSparesOthers(steps: seq<Step>, s: State, outcome: Outcome, q: nat)
    requires s.flight.At? && q != s.flight.task.no && Reaches(steps, s)
    ensures var s' := Apply(s, Finish(outcome));
            Answers(s'.told, q) == Answers(s.told, q) &&
            forall e: Pending :: e.promise == q ==> (e in s'.pending <==> e in s.pending)
  {
    var f := Failed(s.flight.tag);
    FlightOwns(steps, s);
    hide Reaches, Answers, Settles, Keep;
    if outcome.Refused? {
      SettlesElse(s.pending, f, q);
      AnswersConcat(s.told, Settles(s.pending, f), q);
      forall e: Pending | e.promise == q ensures e in Keep(s.pending, f) <==> e in s.pending {
        KeepExactly(s.pending, f, e);
      }
    }
  }

  /// Under the tag of the running attempt no other promise is filed.
  lemma FlightOwns(steps: seq<Step>, s: State)
    requires s.flight.At? && Reaches(steps, s)
    ensures forall e :: e in s.pending && e.tag == s.flight.tag ==> e.promise == s.flight.task.no
  {
    ReachesInv(steps, s);
    hide QueueInv, ToldInv, FateOf;
  }

  lemma {:induction false} SettlesElse(pending: seq<Pending>, e: Event, q: nat)
    requires forall x :: x in pending && e.Covers(x.tag) ==> x.promise != q
    ensures Answers(Settles(pending, e), q) == []
  {
    if pending != [] {
      assert forall x :: x in pending[1..] ==> x in pending;
      SettlesElse(pending[1..], e, q);
      var head := if e.Covers(pending[0].tag) then [Told(pending[0].promise, e.Verdict())] else [];
      AnswersConcat(head, Settles(pending[1..], e), q);
      assert pending[0] in pending;
    }
  }

  /// Whatever the step, a promise that has been answered keeps its answer.
  lemma AnswersStand(steps: seq<Step>, s: State, step: Step, p: nat)
    requires Enabled(s, step) && Reaches(steps, s) && Answers(s.told, p) != []
    ensures Answers(Apply(s, step).told, p) == Answers(s.told, p)
  {
    var s' := Apply(s, step);
    LeadsSnoc(Init(), steps, s, step);
    EachPromiseOnce(steps + [step], s', p);
    var more := ToldGrows(s, step);
    AnswersConcat(s.told, more, p);
  }

  lemma ToldGrows(s: State, step: Step) returns (more: seq<Told>)
    requires Enabled(s, step)
    ensures Apply(s, step).told == s.told + more
  {
    hide Settles, Keep;
    more := Apply(s, step).told[|s.told|..];
  }

  lemma FlightAnswer(steps: seq<Step>, s: State)
    requires s.flight.At? && s.flight.task.job == Publish(true) && Reaches(steps, s)
    ensures Answers(s.told, s.flight.task.no) == [] <==> HasTag(s.pending, s.flight.tag)
  {
    ReachesInv(steps, s);
    assert Acks(s.drawn, s.flight.tag) && s.drawn[s.flight.tag - 1] == s.flight.task;
    assert Answers(s.told, s.drawn[s.flight.tag - 1].no) == AnswerIn(s.log, s.flight.tag);
    hide Answers, FateOf, QueueInv;
  }

  lemma FlightSettles(steps: seq<Step>, s: State, e: Event)
    requires s.flight.At? && Reaches(steps, s)
    ensures Answers(Settles(s.pending, e), s.flight.task.no) == if HasTag(s.pending, s.flight.tag) && e.Covers(s.flight.tag) then [e.Verdict()] else []
  {
    hide ToldInv, FateOf, Answers, Settles;
    ReachesInv(steps, s);
    DrawnFacts(s);
    PromisesDistinct(s.pending, s.drawn);
    SettledAnswer(s.pending, s.drawn, e, s.flight.tag - 1);
  }

  /// A lost connection leaves no promise waiting: every filed one is told false,
  /// and no other hears anything.
  lemma LossAnswersAll(steps: seq<Step>, s: State, p: nat)
    requires p < |s.executed| && s.executed[p].job == Publish(true) && Reaches(steps, s)
    ensures var s' := Apply(s, ConnectionError);
            s'.pending == [] && |Answers(s'.told, p)| == 1 &&
            Answers(s'.told, p) == if exists e :: e in s.pending && e.promise == p then [false] else Answers(s.told, p)
  {
    KeepNone(s.pending);
    EachPromiseOnce(steps, s, p);
    AnswersConcat(s.told, Settles(s.pending, Lost), p);
    hide Reaches, Answers, Settles, Keep;
    if e :| e in s.pending && e.promise == p {
      FiledUnanswered(steps, s, e);
      FiledSettles(steps, s, e, Lost);
    } else {
      SettlesNone(s.pending, Lost, p);
    }
  }

  lemma {:induction false} KeepNone(pending: seq<Pending>)
    ensures Keep(pending, Lost) == []
  {
    if pending != [] { KeepNone(pending[1..]); }
  }

  lemma {:induction false} LeadsSnoc(s: State, steps: seq<Step>, s1: State, step: Step)
    requires Leads(s, steps, s1) && Enabled(s1, step)
    ensures Leads(s, steps + [step], Apply(s1, step))
    decreases |steps|
  {
    hide Apply, Enabled;
    if steps == [] {
      assert [step][1..] == [];
    } else {
      LeadsSnoc(Apply(s, steps[0]), steps[1..], s1, step);
      assert (steps + [step])[1..] == steps[1..] + [step];
    }
  }

  // ----- whose confirm is it? ------------------------------------------------------------------------

  /// How many attempts did not hand their message over.
  function Failures(outcomes: seq<Outcome>): nat {
    if outcomes == [] then 0
    else
      var n := |outcomes| - 1;
      Failures(outcomes[..n]) + (if outcomes[n].Handed() then 0 else 1)
  }

  lemma {:induction false} TakenCount(drawn: seq<Task>, outcomes: seq<Outcome>)
    requires |outcomes| <= |drawn|
    ensures |TakenOf(drawn, outcomes)| + Failures(outcomes) == |outcomes|
  {
    if outcomes != [] { TakenCount(drawn, outcomes[..|outcomes| - 1]); }
  }

  lemma {:induction false} TakenAt(drawn: seq<Task>, outcomes: seq<Outcome>, k: nat)
    requires k < |outcomes| <= |drawn| && outcomes[k].Handed()
    ensures var pos := k - Failures(outcomes[..k]);
            0 <= pos < |TakenOf(drawn, outcomes)| && TakenOf(drawn, outcomes)[pos] == drawn[k]
    decreases |outcomes|
  {
    var n := |outcomes| - 1;
    if k == n {
      TakenCount(drawn, outcomes[..n]);
    } else {
      TakenAt(drawn, outcomes[..n], k);
      assert outcomes[..n][..k] == outcomes[..k];
    }
  }

  lemma TagFacts(steps: seq<Step>, s: State)
    requires Reaches(steps, s)
    ensures s.origin <= |s.outcomes| <= |s.drawn| && InPostOrder(s.drawn)
    ensures s.received == TakenOf(s.drawn[s.origin..], s.outcomes[s.origin..])
  {
    ReachesInv(steps, s);
    DrawnFacts(s);
  }

  /// The broker numbers the messages of a channel 1, 2, 3, ...; the adapter
  /// counts attempts, on all its channels. On the last channel the message under
  /// tag n has the broker's number n minus the attempts on earlier channels and
  /// minus those on this one that failed or threw without handing over.
  lemma TagDrift(steps: seq<Step>, s: State, n: nat)
    requires s.origin < n <= |s.outcomes| && s.outcomes[n - 1].Handed() && Reaches(steps, s)
    ensures var number := n - s.origin - Failures(s.outcomes[s.origin..n - 1]);
            1 <= number <= |s.received| && n <= |s.drawn| && s.received[number - 1] == s.drawn[n - 1]
  {
    hide Inv, Reaches, TakenOf, Failures;
    TagFacts(steps, s);
    var k := n - 1 - s.origin;
    assert |s.outcomes[s.origin..]| <= |s.drawn[s.origin..]| && s.outcomes[s.origin..][k] == s.outcomes[n - 1];
    TakenAt(s.drawn[s.origin..], s.outcomes[s.origin..], k);
    assert s.outcomes[s.origin..][..k] == s.outcomes[s.origin..n - 1];
  }

  /// Every attempt before a message of the last channel was made on that channel
  /// too, and handed over.
  ghost predicate InStep(outcomes: seq<Outcome>, origin: nat) {
    forall i, j :: 0 <= i < j < |outcomes| && origin <= j && outcomes[j].Handed() ==> origin <= i && outcomes[i].Handed()
  }

  /// Tags and broker numbers agree on every message of the last channel exactly
  /// when no attempt on an earlier channel and no failed one came before any of
  /// them.
  lemma TagsAgreeIffInStep(steps: seq<Step>, s: State)
    requires Reaches(steps, s)
    ensures s.received <= s.drawn <==> InStep(s.outcomes, s.origin)
  {
    hide Inv, Reaches, TakenOf, Failures;
    TagFacts(steps, s);
    var drawn, outcomes := s.drawn[s.origin..], s.outcomes[s.origin..];
    if InStep(s.outcomes, s.origin) {
      if s.origin == 0 {
        assert drawn == s.drawn && outcomes == s.outcomes;
        InStepAgrees(drawn, outcomes);
      } else {
        forall k | 0 <= k < |outcomes| ensures !outcomes[k].Handed() {
          var first, later := s.outcomes[0], s.outcomes[s.origin + k];
          assert outcomes[k] == later;
        }
        NoneTaken(drawn, outcomes);
      }
    } else {
      var i, j :| 0 <= i < j < |s.outcomes| && s.origin <= j && s.outcomes[j].Handed() && !(s.origin <= i && s.outcomes[i].Handed());
      var k := j - s.origin;
      assert |outcomes| <= |drawn| && outcomes[k] == s.outcomes[j];
      TakenAt(drawn, outcomes, k);
      if s.origin <= i { SomeFailure(outcomes[..k], i - s.origin); }
      var pos := k - Failures(outcomes[..k]);
      assert s.received[pos] == s.drawn[j] && s.drawn[pos].no < s.drawn[j].no;
    }
  }

  lemma {:induction false} NoneTaken(drawn: seq<Task>, outcomes: seq<Outcome>)
    requires |outcomes| <= |drawn| && forall i :: 0 <= i < |outcomes| ==> !outcomes[i].Handed()
    ensures TakenOf(drawn, outcomes) == []
    decreases |outcomes|
  {
    if outcomes != [] { NoneTaken(drawn, outcomes[..|outcomes| - 1]); }
  }

  lemma {:induction false} SomeFailure(outcomes: seq<Outcome>, i: nat)
    requires i < |outcomes| && !outcomes[i].Handed()
    ensures Failures(outcomes) >= 1
  {
    var n := |outcomes| - 1;
    if i < n { SomeFailure(outcomes[..n], i); }
  }

  lemma {:induction false} InStepAgrees(drawn: seq<Task>, outcomes: seq<Outcome>)
    requires |outcomes| <= |drawn| && InStep(outcomes, 0)
    ensures TakenOf(drawn, outcomes) <= drawn
    ensures (forall i :: 0 <= i < |outcomes| ==> outcomes[i].Handed()) ==> TakenOf(drawn, outcomes) == drawn[..|outcomes|]
    decreases |outcomes|
  {
    if outcomes != [] {
      InStepAgrees(drawn, outcomes[..|outcomes| - 1]);
    }
  }

  /// What goes wrong after a failed attempt: three messages, the first refused by the
  /// channel. The broker then numbers the second 1 and the third 2. It nacks
  /// its number 1 and acks its number 2; the adapter tells the publisher of the
  /// *second* message that it was acknowledged, and the third never hears.
  lemma Misattributed() returns (steps: seq<Step>, s: State)
    ensures Reaches(steps, s)
    ensures s.received == [Message(2), Message(3)]
    ensures |s.log| >= 2 && s.log[|s.log| - 2..] == [Confirm(1, false, false), Confirm(2, false, true)]
    ensures Answers(s.told, 2) == [true] && Answers(s.told, 3) == []
  {
    hide Reaches, Resolve;
    steps, s := ThreeAttempts();
    var after := TwoConfirms(s);
    steps, s := Extend(steps, s, Acked(1, false, false));
    steps, s := Extend(steps, s, Acked(2, false, true));
    assert s == after;
    assert s.told[1..] == [Told(2, true)];
    OneAnswer(2, true, 2);
    OneAnswer(2, true, 3);
    TailOf(after.log[..|after.log| - 2], [Confirm(1, false, false), Confirm(2, false, true)]);
    assert after.log == after.log[..|after.log| - 2] + [Confirm(1, false, false), Confirm(2, false, true)];
  }

  lemma TailOf(a: seq<Event>, b: seq<Event>)
    ensures (a + b)[|a|..] == b
  {
  }

  lemma TwoConfirms(s: State) returns (s': State)
    requires s.pending == [Pending(2, 2), Pending(3, 3)] && s.told == [Told(1, false)]
    ensures s' == Resolve(Resolve(s, Confirm(1, false, false)), Confirm(2, false, true))
    ensures s'.told == [Told(1, false), Told(2, true)] && s'.received == s.received
    ensures s'.log == s.log + [Confirm(1, false, false), Confirm(2, false, true)]
  {
    hide Keep, Settles;
    var s1 := Resolve(s, Confirm(1, false, false));
    s' := Resolve(s1, Confirm(2, false, true));
    TwoEntries(Confirm(1, false, false));
    TwoEntries(Confirm(2, false, true));
    assert s1.pending == s.pending && s1.told == s.told;
    assert s.log + [Confirm(1, false, false)] + [Confirm(2, false, true)] == s.log + [Confirm(1, false, false), Confirm(2, false, true)];
  }

  lemma ThreeAttempts() returns (steps: seq<Step>, s: State)
    ensures Reaches(steps, s) && s.received == [Message(2), Message(3)]
    ensures s.pending == [Pending(2, 2), Pending(3, 3)] && s.told == [Told(1, false)]
  {
    hide Reaches, Keep, Settles;
    steps, s := ThreePosted();
    var rest := s.batch[1..];
    steps, s := Attempt(steps, s, Refused);
    OneEntry(1, 1, Failed(1));
    assert [] + [Pending(1, 1)] == [Pending(1, 1)] && rest == [Message(2), Message(3)];
    assert s.batch == rest && s.pending == [] && s.told == [Told(1, false)] && s.received == [];
    steps, s := Attempt(steps, s, Accepted);
    assert s.batch == [Message(3)] && s.pending == [Pending(2, 2)] && s.received == [Message(2)];
    steps, s := Attempt(steps, s, Accepted);
  }

  function Message(no: nat): Task {
    Task(no, Publish(true))
  }

  lemma Extend(steps: seq<Step>, s: State, step: Step) returns (steps': seq<Step>, s': State)
    requires Enabled(s, step) && Reaches(steps, s)
    ensures s' == Apply(s, step) && Reaches(steps', s')
  {
    LeadsSnoc(Init(), steps, s, step);
    steps', s' := steps + [step], Apply(s, step);
  }

  /// The channel is up and three messages are to be published.
  lemma ThreePosted() returns (steps: seq<Step>, s: State)
    ensures Reaches(steps, s) && s.batch == [Message(1), Message(2), Message(3)] && s.channel && s.flight.Idle? && s.next == 1
    ensures s.pending == [] && s.told == [] && s.received == [] && s.log == []
  {
    var c := Task(0, Connect);
    assert Reaches([], Init());
    steps, s := Extend([], Init(), Post(Connect));
    steps, s := Extend(steps, s, Post(Publish(true)));
    steps, s := Extend(steps, s, Post(Publish(true)));
    steps, s := Extend(steps, s, Post(Publish(true)));
    assert s == Init().(queue := [c, Message(1), Message(2), Message(3)], posted := [c, Message(1), Message(2), Message(3)]);
    steps, s := Extend(steps, s, Swap);
    assert s.batch[1..] == [Message(1), Message(2), Message(3)];
    steps, s := Extend(steps, s, RunConnect(true));
  }

  /// One attempt from start to end, where nothing is pending for a refusal to find but its own tag.
  lemma Attempt(steps: seq<Step>, s: State, outcome: Outcome) returns (steps': seq<Step>, s': State)
    requires NextPublish(s) && s.channel && s.batch[0].job.ack && Reaches(steps, s)
    ensures var t := s.batch[0];
            var filed := s.pending + [Pending(s.next, t.no)];
            Reaches(steps', s') && s'.batch == s.batch[1..] && s'.channel && s'.flight.Idle? && s'.next == s.next + 1 && s'.queue == s.queue && s'.posted == s.posted && s'.outcomes == s.outcomes + [outcome] &&
            s'.received == s.received + (if outcome.Handed() then [t] else []) &&
            s'.pending == (if outcome.Refused? then Keep(filed, Failed(s.next)) else filed) &&
            s'.told == s.told + (if outcome.Refused? then Settles(filed, Failed(s.next)) else [])
  {
    var s1;
    steps', s1 := Extend(steps, s, RunPublish);
    steps', s' := Extend(steps', s1, Finish(outcome));
  }

  /// What goes wrong after a reattach, with no failed attempt at all: the first
  /// channel takes a message and goes before its confirm comes; the second takes
  /// the next message and its broker acks its number 1. The publisher of the
  /// *first* message is told, and that of the second never hears.
  lemma ReattachMisattributed() returns (steps: seq<Step>, s: State)
    ensures Reaches(steps, s) && s.outcomes == [Accepted, Accepted]
    ensures s.received == [Message(3)]
    ensures |s.log| >= 1 && s.log[|s.log| - 1] == Confirm(1, false, true)
    ensures Answers(s.told, 1) == [true] && Answers(s.told, 3) == []
  {
    hide Reaches, Keep, Settles;
    steps, s := OneEachSide();
    var e := Confirm(1, false, true);
    steps, s := Extend(steps, s, Acked(1, false, true));
    SettlesFirst(e);
    assert s.told == [Told(1, true)];
    OneAnswer(1, true, 1);
    OneAnswer(1, true, 3);
  }

  /// A message on each of two channels, neither confirmed yet.
  lemma OneEachSide() returns (steps: seq<Step>, s: State)
    ensures Reaches(steps, s) && s.outcomes == [Accepted, Accepted] && s.received == [Message(3)]
    ensures s.pending == [Pending(1, 1), Pending(2, 3)] && s.told == []
  {
    hide Reaches, Keep, Settles, Resolve;
    steps, s := StartOut();
    steps, s := Attach(steps, s);
    var rest := s.batch[1..];
    steps, s := Attempt(steps, s, Accepted);
    assert rest == [] && s.batch == rest && s.pending == [Pending(1, 1)] && s.told == [] && s.outcomes == [Accepted];
    steps, s := Detached(steps, s);
    steps, s := Attach(steps, s);
    assert s.batch == [Message(3)] && s.next == 2;
    steps, s := Attempt(steps, s, Accepted);
  }

  lemma Detached(steps: seq<Step>, s: State) returns (steps': seq<Step>, s': State)
    requires s.batch == [] && s.flight.Idle? && Reaches(steps, s)
    ensures Reaches(steps', s') && s' == s.(channel := false)
  {
    steps', s' := Extend(steps, s, Shutdown);
  }

  lemma StartOut() returns (steps: seq<Step>, s: State)
    ensures Reaches(steps, s) && s == Init()
  {
    steps, s := [], Init();
  }

  /// The adapter attaches and one message is posted behind the connect task.
  lemma Attach(steps: seq<Step>, s: State) returns (steps': seq<Step>, s': State)
    requires s.queue == [] && s.batch == [] && s.flight.Idle? && Reaches(steps, s)
    ensures Reaches(steps', s') && s'.batch == [Message(|s.posted| + 1)] && s'.queue == [] && s'.channel && s'.flight.Idle?
    ensures |s'.posted| == |s.posted| + 2 && s'.next == s.next && s'.received == []
    ensures s'.pending == s.pending && s'.told == s.told && s'.outcomes == s.outcomes && s'.log == s.log
  {
    hide Reaches;
    var c, m := Task(|s.posted|, Connect), Message(|s.posted| + 1);
    var s1, s2, s3;
    steps', s1 := Extend(steps, s, Post(Connect));
    steps', s2 := Extend(steps', s1, Post(Publish(true)));
    assert s2.queue == [c, m];
    steps', s3 := Extend(steps', s2, Swap);
    assert s3.batch[1..] == [m];
    steps', s' := Extend(steps', s3, RunConnect(true));
  }

  lemma SettlesFirst(e: Event)
    requires e.Covers(1) && !e.Covers(2) && e.Verdict()
    ensures Settles([Pending(1, 1), Pending(2, 3)], e) == [Told(1, true)]
  {
    assert [Pending(1, 1), Pending(2, 3)][1..] == [Pending(2, 3)];
    OneEntry(2, 3, e);
  }


  lemma OneEntry(tag: nat, p: nat, e: Event)
    ensures Keep([Pending(tag, p)], e) == (if e.Covers(tag) then [] else [Pending(tag, p)])
    ensures Settles([Pending(tag, p)], e) == (if e.Covers(tag) then [Told(p, e.Verdict())] else [])
  {
    assert [Pending(tag, p)][1..] == [];
  }

  lemma TwoEntries(e: Event)
    ensures Keep([Pending(2, 2), Pending(3, 3)], e) == (if e.Covers(2) then [] else [Pending(2, 2)]) + (if e.Covers(3) then [] else [Pending(3, 3)])
    ensures Settles([Pending(2, 2), Pending(3, 3)], e) == (if e.Covers(2) then [Told(2, e.Verdict())] else []) + (if e.Covers(3) then [Told(3, e.Verdict())] else [])
  {
    assert [Pending(2, 2), Pending(3, 3)][1..] == [Pending(3, 3)];
    OneEntry(3, 3, e);
  }
}
