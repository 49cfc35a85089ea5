/** Two stages, one worker each: the responses run on the second queue in the order in which
    their tasks were submitted to the first. */
module Order {
  import opened Sums
  import opened Tasks
  import opened Protocol
  import opened Accounting
  import opened Progress

  /** Queue `first` is served by thread `a` alone, queue `second` by thread `b` alone. */
  datatype Stages = Stages(first: QueueId, second: QueueId, a: ThreadId, b: ThreadId)

  ghost predicate SoleWorker(s: State, q: QueueId, i: ThreadId) {
    && q < |s.queues| && i < |s.threads| && s.threads[i].home == q
    && forall j | 0 <= j < |s.threads| && j != i && s.threads[j].home == q ::
         !s.threads[j].armed && !s.threads[j].inCb && s.threads[j].run.None?
  }

  /** Tasks for the second stage reach it only as responses of the first. */
  predicate Routed(p: Stages, q: QueueId, t: Task) {
    t.Hooked() ==> (t.resp == p.second <==> q == p.first)
  }

  predicate StageStep(p: Stages, a: Step) {
    a.Submit? ==> a.q != p.second && Routed(p, a.q, a.task)
  }

  ghost predicate StageRun(p: Stages, run: seq<Step>) {
    forall a | a in run :: StageStep(p, a)
  }

  // ---- Histories ----

  ghost function FinOf(q: QueueId): Event -> seq<Task> {
    (e: Event) => if e.Finished? && e.q == q then [e.task] else []
  }

  ghost function OutcomeOf(q: QueueId): Event -> seq<Outcome> {
    (e: Event) => if e.Finished? && e.q == q then [e.outcome] else []
  }

  ghost function ReplyOf(q: QueueId): Event -> seq<Task> {
    (e: Event) => if e.Finished? && e.q == q && e.reply.Some? then [e.reply.value] else []
  }

  ghost function FinHistory(s: State, q: QueueId): seq<Task> { Flat(s.log, FinOf(q)) }

  ghost function Outcomes(s: State, q: QueueId): seq<Outcome> { Flat(s.log, OutcomeOf(q)) }

  ghost function Replies(s: State, q: QueueId): seq<Task> { Flat(s.log, ReplyOf(q)) }

  function Running(th: Thread): seq<Task> {
    if th.run.Some? then [th.run.value] else []
  }

  function PostingTo(th: Thread, q: QueueId): seq<Task> {
    if th.call.Posting? && th.call.q == q then [th.call.task] else []
  }

  // ---- The specification: map through the outcome, keep those with the matching hook ----

  ghost function Expected(tasks: seq<Task>, outcomes: seq<Outcome>): seq<Work>
    requires |tasks| == |outcomes|
  {
    if tasks == [] then []
    else Expected(tasks[..|tasks| - 1], outcomes[..|tasks| - 1])
         + ResponseWork(tasks[|tasks| - 1], outcomes[|tasks| - 1])
  }

  function Works(tasks: seq<Task>): seq<Work> {
    seq(|tasks|, i requires 0 <= i < |tasks| => tasks[i].work)
  }

  // ---- The invariant ----

  ghost predicate WellRouted(s: State, p: Stages) {
    && (forall q, t | 0 <= q < |s.queues| && t in s.queues[q].tasks :: Routed(p, q, t))
    && (forall i | 0 <= i < |s.threads| && s.threads[i].run.Some? ::
          Routed(p, s.threads[i].home, s.threads[i].run.value))
    && (forall i | 0 <= i < |s.threads| && i != p.a :: PostingTo(s.threads[i], p.second) == [])
  }

  /** A sole worker finishes tasks in the order it dequeues them. */
  ghost predicate RunsInOrder(s: State, q: QueueId, i: ThreadId)
    requires i < |s.threads|
  {
    DeqHistory(s, q) == FinHistory(s, q) + Running(s.threads[i])
  }

  /** The second queue receives the first stage's replies in the order they were made. */
  ghost predicate PostsInOrder(s: State, p: Stages)
    requires p.a < |s.threads|
  {
    EnqHistory(s, p.second) + PostingTo(s.threads[p.a], p.second) == Replies(s, p.first)
  }

  predicate RepliesMatch(log: seq<Event>) {
    forall e | e in log && e.Finished? ::
      ResponseWork(e.task, e.outcome) == match e.reply case None => [] case Some(r) => [r.work]
  }

  ghost predicate StageInv(s: State, p: Stages) {
    && p.first != p.second
    && SoleWorker(s, p.first, p.a) && SoleWorker(s, p.second, p.b)
    && WellRouted(s, p)
    && RunsInOrder(s, p.first, p.a) && RunsInOrder(s, p.second, p.b)
    && PostsInOrder(s, p)
    && RepliesMatch(s.log)
  }

  lemma InitStages(s: State, p: Stages)
    requires Init(s) && p.first != p.second
    requires SoleWorker(s, p.first, p.a) && SoleWorker(s, p.second, p.b)
    ensures StageInv(s, p)
  {
  }

  // ---- Every step of a routed run keeps it ----

  lemma SoleWorkerKeeps(s: State, a: Step, q: QueueId, i: ThreadId)
    requires Enabled(s, a) && SoleWorker(s, q, i)
    ensures SoleWorker(Next(s, a), q, i)
  {
  }

  lemma QueuesRoutedKeep(s: State, a: Step, p: Stages, q: QueueId)
    requires Enabled(s, a) && StageStep(p, a) && q < |s.queues| && ThreadOk(s, s.threads[a.i])
    requires forall t | t in s.queues[q].tasks :: Routed(p, q, t)
    ensures forall t | t in NextQueue(s, a, q).tasks :: Routed(p, q, t)
  {
  }

  /** A thread may take a step of the two stages: what it runs is routed, and only the first
      stage's worker posts to the second queue. */
  predicate ActorOk(p: Stages, th: Thread, first: bool) {
    && (th.run.Some? ==> Routed(p, th.home, th.run.value))
    && (if first then th.home == p.first
        else PostingTo(th, p.second) == [] && (th.home == p.first ==> th.run.None?))
  }

  lemma ActorIsOk(s: State, a: Step, p: Stages)
    requires Enabled(s, a) && WellRouted(s, p) && SoleWorker(s, p.first, p.a)
    ensures ActorOk(p, s.threads[a.i], a.i == p.a)
  {
  }

  /** What a thread is about to post to q, and what it has left to post after its step. */
  lemma PostingMoves(s: State, a: Step, q: QueueId)
    requires Enabled(s, a)
    ensures PostingTo(NextThread(s, a), q) ==
              if a.Post? then []
              else if a.Return? then
                if Reply(s, a).Some? && s.threads[a.i].run.value.resp == q then [Reply(s, a).value] else []
              else PostingTo(s.threads[a.i], q)
  {
  }

  lemma ThreadRoutedKeeps(s: State, a: Step, p: Stages)
    requires Inv(s) && Enabled(s, a) && WellRouted(s, p)
    ensures NextThread(s, a).run.Some? ==> Routed(p, NextThread(s, a).home, NextThread(s, a).run.value)
  {
    var th := s.threads[a.i];
    assert a.Dequeue? && s.queues[th.home].tasks != [] ==> s.queues[th.home].tasks[0] in s.queues[th.home].tasks;
  }

  /** Nobody but the worker of the first stage comes to post to the second queue. */
  lemma PostingRoutedKeeps(s: State, a: Step, p: Stages)
    requires Enabled(s, a) && ActorOk(p, s.threads[a.i], false)
    ensures PostingTo(NextThread(s, a), p.second) == []
  {
    PostingMoves(s, a, p.second);
    hide NextThread;
  }

  lemma RoutingKeeps(s: State, a: Step, p: Stages)
    requires Inv(s) && Enabled(s, a) && StageStep(p, a) && WellRouted(s, p)
    requires SoleWorker(s, p.first, p.a)
    ensures WellRouted(Next(s, a), p)
  {
    var s' := Next(s, a);
    assert ThreadOk(s, s.threads[a.i]);
    ThreadRoutedKeeps(s, a, p);
    ActorIsOk(s, a, p);
    if a.i != p.a {
      PostingRoutedKeeps(s, a, p);
    }
    NextParts(s, a);
    forall q, t | 0 <= q < |s'.queues| && t in s'.queues[q].tasks
      ensures Routed(p, q, t)
    {
      QueuesRoutedKeep(s, a, p, q);
    }
    hide Inv, Enabled, StageStep, Next, NextThread, NextQueue, ActorOk, SoleWorker, Routed, PostingTo;
  }

  lemma DequeuedTask(s: State, a: Step)
    requires Enabled(s, a)
    ensures Flat(NextEvent(s, a), DeqOf(s.threads[a.i].home)) == if a.Dequeue? then Running(NextThread(s, a)) else []
  {
    FlatOne(NextEvent(s, a), DeqOf(s.threads[a.i].home));
  }

  lemma FinishedTask(s: State, a: Step)
    requires Enabled(s, a)
    ensures Flat(NextEvent(s, a), FinOf(s.threads[a.i].home)) == if a.Return? then Running(s.threads[a.i]) else []
  {
    FlatOne(NextEvent(s, a), FinOf(s.threads[a.i].home));
  }

  lemma RunningMoves(s: State, a: Step)
    requires Enabled(s, a)
    ensures a.Dequeue? ==> Running(s.threads[a.i]) == []
    ensures a.Return? ==> Running(NextThread(s, a)) == []
    ensures !a.Dequeue? && !a.Return? ==> Running(NextThread(s, a)) == Running(s.threads[a.i])
  {
  }

  /** What the sole worker of q starts is logged as dequeued from q, what it ends as finished. */
  lemma SoleWorkerMoves(s: State, a: Step, q: QueueId)
    requires Enabled(s, a) && s.threads[a.i].home == q
    ensures Running(s.threads[a.i]) + Flat(NextEvent(s, a), DeqOf(q))
         == Flat(NextEvent(s, a), FinOf(q)) + Running(NextThread(s, a))
  {
    DequeuedTask(s, a);
    FinishedTask(s, a);
    RunningMoves(s, a);
    hide *;
  }

  /** Other threads do neither there. */
  lemma OthersMoveNothing(s: State, a: Step, q: QueueId)
    requires Enabled(s, a)
    requires s.threads[a.i].home == q ==> !s.threads[a.i].inCb && s.threads[a.i].run.None?
    ensures Flat(NextEvent(s, a), DeqOf(q)) == Flat(NextEvent(s, a), FinOf(q)) == []
  {
    FlatOne(NextEvent(s, a), DeqOf(q));
    FlatOne(NextEvent(s, a), FinOf(q));
  }

  lemma OthersMoveNobody(s: State, a: Step, q: QueueId, i: ThreadId)
    requires Enabled(s, a) && SoleWorker(s, q, i) && a.i != i
    ensures Flat(NextEvent(s, a), DeqOf(q)) == Flat(NextEvent(s, a), FinOf(q)) == []
    ensures Next(s, a).threads[i] == s.threads[i]
  {
    OthersMoveNothing(s, a, q);
  }

  lemma OneMove(s: State, a: Step, q: QueueId, i: ThreadId)
    requires Enabled(s, a) && SoleWorker(s, q, i)
    ensures Running(s.threads[i]) + Flat(NextEvent(s, a), DeqOf(q))
         == Flat(NextEvent(s, a), FinOf(q)) + Running(Next(s, a).threads[i])
  {
    if a.i == i {
      SoleWorkerMoves(s, a, q);
    } else {
      OthersMoveNobody(s, a, q, i);
      hide *;
    }
  }

  lemma RunsInOrderKeeps(s: State, a: Step, q: QueueId, i: ThreadId)
    requires Enabled(s, a) && SoleWorker(s, q, i) && RunsInOrder(s, q, i)
    ensures RunsInOrder(Next(s, a), q, i)
  {
    NextParts(s, a);
    assert i < |s.threads|;
    hide Enabled, Next, NextThread, NextQueue, NextEvent, Running, SoleWorker, Flat;
    var e := NextEvent(s, a);
    OneMove(s, a, q, i);
    FlatConcat(s.log, e, DeqOf(q));
    FlatConcat(s.log, e, FinOf(q));
    ShiftQueue(FinHistory(s, q), Running(s.threads[i]), Flat(e, DeqOf(q)), Flat(e, FinOf(q)),
               Running(Next(s, a).threads[i]));
  }

  lemma SecondStageEnqueues(s: State, a: Step, p: Stages)
    requires Enabled(s, a) && StageStep(p, a)
    ensures Flat(NextEvent(s, a), EnqOf(p.second)) ==
              if a.Post? then PostingTo(s.threads[a.i], p.second) else []
  {
    FlatOne(NextEvent(s, a), EnqOf(p.second));
  }

  lemma FirstStageReplies(s: State, a: Step, p: Stages)
    requires Enabled(s, a) && s.threads[a.i].home == p.first
    ensures Flat(NextEvent(s, a), ReplyOf(p.first)) ==
              if a.Return? && Reply(s, a).Some? then [Reply(s, a).value] else []
  {
    FlatOne(NextEvent(s, a), ReplyOf(p.first));
  }

  lemma RepliesAreRouted(s: State, a: Step, p: Stages)
    requires Enabled(s, a) && a.Return? && ActorOk(p, s.threads[a.i], true)
    ensures PostingTo(s.threads[a.i], p.second) == []
    ensures Reply(s, a).Some? ==> s.threads[a.i].run.value.resp == p.second
  {
  }

  /** What the first stage logs as a reply for the second, its thread is about to post; what that
      thread posts is logged as enqueued. */
  lemma FirstStagePosts(s: State, a: Step, p: Stages)
    requires Enabled(s, a) && StageStep(p, a) && ActorOk(p, s.threads[a.i], true)
    ensures PostingTo(s.threads[a.i], p.second) + Flat(NextEvent(s, a), ReplyOf(p.first))
         == Flat(NextEvent(s, a), EnqOf(p.second)) + PostingTo(NextThread(s, a), p.second)
  {
    assert s.threads[a.i].home == p.first;
    SecondStageEnqueues(s, a, p);
    FirstStageReplies(s, a, p);
    PostingMoves(s, a, p.second);
    if a.Return? {
      RepliesAreRouted(s, a, p);
    }
    hide *;
  }

  /** No other thread does either. */
  lemma OthersPostNothing(s: State, a: Step, p: Stages)
    requires Enabled(s, a) && StageStep(p, a) && ActorOk(p, s.threads[a.i], false)
    ensures Flat(NextEvent(s, a), ReplyOf(p.first)) == Flat(NextEvent(s, a), EnqOf(p.second)) == []
  {
    FlatOne(NextEvent(s, a), EnqOf(p.second));
    FlatOne(NextEvent(s, a), ReplyOf(p.first));
  }

  lemma OnePost(s: State, a: Step, p: Stages)
    requires Enabled(s, a) && StageStep(p, a) && WellRouted(s, p) && SoleWorker(s, p.first, p.a)
    ensures PostingTo(s.threads[p.a], p.second) + Flat(NextEvent(s, a), ReplyOf(p.first))
         == Flat(NextEvent(s, a), EnqOf(p.second)) + PostingTo(Next(s, a).threads[p.a], p.second)
  {
    ActorIsOk(s, a, p);
    NextParts(s, a);
    assert p.a < |s.threads|;
    hide Enabled, Next, NextThread, NextQueue, NextEvent, PostingTo, WellRouted, ActorOk, StageStep, Flat;
    if a.i == p.a {
      FirstStagePosts(s, a, p);
    } else {
      OthersPostNothing(s, a, p);
      assert Next(s, a).threads[p.a] == s.threads[p.a];
      assert PostingTo(s.threads[p.a], p.second) + [] == [] + PostingTo(s.threads[p.a], p.second);
    }
  }

  lemma PostsInOrderKeeps(s: State, a: Step, p: Stages)
    requires Enabled(s, a) && StageStep(p, a) && WellRouted(s, p)
    requires SoleWorker(s, p.first, p.a) && PostsInOrder(s, p)
    ensures PostsInOrder(Next(s, a), p)
  {
    NextParts(s, a);
    assert p.a < |s.threads|;
    hide Enabled, Next, NextThread, NextQueue, NextEvent, PostingTo, WellRouted, SoleWorker, StageStep, Flat;
    var e := NextEvent(s, a);
    OnePost(s, a, p);
    FlatConcat(s.log, e, EnqOf(p.second));
    FlatConcat(s.log, e, ReplyOf(p.first));
    ShiftQueue(EnqHistory(s, p.second), PostingTo(s.threads[p.a], p.second), Flat(e, ReplyOf(p.first)),
               Flat(e, EnqOf(p.second)), PostingTo(Next(s, a).threads[p.a], p.second));
  }

  lemma RepliesMatchKeep(s: State, a: Step)
    requires Enabled(s, a) && RepliesMatch(s.log)
    ensures RepliesMatch(Next(s, a).log)
  {
  }

  lemma StepKeepsStages(s: State, a: Step, p: Stages)
    requires Inv(s) && Enabled(s, a) && StageStep(p, a) && StageInv(s, p)
    ensures StageInv(Next(s, a), p)
  {
    assert ThreadOk(s, s.threads[a.i]);
    SoleWorkerKeeps(s, a, p.first, p.a);
    SoleWorkerKeeps(s, a, p.second, p.b);
    RoutingKeeps(s, a, p);
    RunsInOrderKeeps(s, a, p.first, p.a);
    RunsInOrderKeeps(s, a, p.second, p.b);
    PostsInOrderKeeps(s, a, p);
    RepliesMatchKeep(s, a);
  }

  lemma {:induction false} RunKeepsStages(s: State, run: seq<Step>, p: Stages)
    requires Inv(s) && CanRun(s, run) && StageRun(p, run) && StageInv(s, p)
    ensures Inv(After(s, run)) && StageInv(After(s, run), p)
    decreases |run|
  {
    if run != [] {
      StepKeepsInv(s, run[0]);
      StepKeepsStages(s, run[0], p);
      RunKeepsStages(Next(s, run[0]), run[1..], p);
    }
  }

  // ---- Order preservation ----

  lemma WorksConcat(xs: seq<Task>, ys: seq<Task>)
    ensures Works(xs + ys) == Works(xs) + Works(ys)
  {
  }

  lemma ExpectedAppend(ts: seq<Task>, os: seq<Outcome>, t: Task, o: Outcome)
    requires |ts| == |os|
    ensures Expected(ts + [t], os + [o]) == Expected(ts, os) + ResponseWork(t, o)
  {
    assert (ts + [t])[..|ts|] == ts && (os + [o])[..|os|] == os;
  }

  /** One event adds to the finished tasks, the outcomes and the replies of q in step. */
  lemma EventIsExpected(ts: seq<Task>, os: seq<Outcome>, e: Event, q: QueueId)
    requires |ts| == |os| && RepliesMatch([e])
    ensures |ts + FinOf(q)(e)| == |os + OutcomeOf(q)(e)|
    ensures Expected(ts + FinOf(q)(e), os + OutcomeOf(q)(e)) == Expected(ts, os) + Works(ReplyOf(q)(e))
  {
    if e.Finished? && e.q == q {
      assert e in [e];
      assert Works(ReplyOf(q)(e)) == ResponseWork(e.task, e.outcome);
      ExpectedAppend(ts, os, e.task, e.outcome);
    } else {
      assert ts + [] == ts && os + [] == os;
    }
  }

  lemma {:induction false} RepliesAreExpected(log: seq<Event>, q: QueueId)
    requires RepliesMatch(log)
    ensures |Flat(log, FinOf(q))| == |Flat(log, OutcomeOf(q))|
    ensures Works(Flat(log, ReplyOf(q))) == Expected(Flat(log, FinOf(q)), Flat(log, OutcomeOf(q)))
  {
    if log != [] {
      var front, e := log[..|log| - 1], log[|log| - 1];
      RepliesAreExpected(front, q);
      EventIsExpected(Flat(front, FinOf(q)), Flat(front, OutcomeOf(q)), e, q);
      WorksConcat(Flat(front, ReplyOf(q)), ReplyOf(q)(e));
    }
  }

  /** At every moment: the first stage has finished a prefix of what was enqueued on it, and what
      the second stage has finished, followed by what it still has to do, is the expected work
      for that prefix, in order. */
  lemma StagesInOrder(s: State, p: Stages)
    requires Inv(s) && StageInv(s, p)
    ensures EnqHistory(s, p.first) ==
              FinHistory(s, p.first) + Running(s.threads[p.a]) + s.queues[p.first].tasks
    ensures |FinHistory(s, p.first)| == |Outcomes(s, p.first)|
    ensures Expected(FinHistory(s, p.first), Outcomes(s, p.first)) ==
              Works(FinHistory(s, p.second)) + Works(Running(s.threads[p.b]))
              + Works(s.queues[p.second].tasks) + Works(PostingTo(s.threads[p.a], p.second))
  {
    assert QueueInv(s, p.first) && QueueInv(s, p.second);
    RepliesAreExpected(s.log, p.first);
    var fin, run := FinHistory(s, p.second), Running(s.threads[p.b]);
    var waiting, posting := s.queues[p.second].tasks, PostingTo(s.threads[p.a], p.second);
    assert Replies(s, p.first) == fin + run + waiting + posting;
    WorksConcat(fin + run + waiting, posting);
    WorksConcat(fin + run, waiting);
    WorksConcat(fin, run);
  }

  lemma InOrderWhenDrained(s: State, p: Stages)
    requires Inv(s) && StageInv(s, p) && AllQuiet(s)
    requires s.queues[p.first].tasks == [] && s.queues[p.second].tasks == []
    ensures |EnqHistory(s, p.first)| == |Outcomes(s, p.first)|
    ensures Works(FinHistory(s, p.second)) == Expected(EnqHistory(s, p.first), Outcomes(s, p.first))
  {
    StagesInOrder(s, p);
    assert s.threads[p.a] in s.threads && s.threads[p.b] in s.threads;
    assert Running(s.threads[p.a]) == [] && Running(s.threads[p.b]) == [];
    assert PostingTo(s.threads[p.a], p.second) == [] && Works([]) == [];
    hide *;
    assert FinHistory(s, p.first) + [] + [] == FinHistory(s, p.first);
    assert Works(FinHistory(s, p.second)) + [] + [] + [] == Works(FinHistory(s, p.second));
  }

  /** Order preservation: once the system has stopped with both queues empty, the trace of
      callbacks and errbacks is the submission trace mapped through the outcomes and filtered to
      the tasks with the matching hook, in the same order. */
  lemma OrderPreserved(s: State, run: seq<Step>, p: Stages)
    requires Init(s) && p.first != p.second
    requires SoleWorker(s, p.first, p.a) && SoleWorker(s, p.second, p.b)
    requires CanRun(s, run) && StageRun(p, run)
    requires var end := After(s, run);
             Terminal(end) && end.queues[p.first].tasks == [] && end.queues[p.second].tasks == []
    ensures var end := After(s, run);
            && |EnqHistory(end, p.first)| == |Outcomes(end, p.first)|
            && Works(FinHistory(end, p.second)) == Expected(EnqHistory(end, p.first), Outcomes(end, p.first))
  {
    InitInv(s);
    InitStages(s, p);
    RunKeepsStages(s, run, p);
    TerminalIsQuiet(After(s, run));
    InOrderWhenDrained(After(s, run), p);
  }
}
