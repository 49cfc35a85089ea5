/** One executor, with any number of workers, whose tasks answer to its own queue: the drain never
    overflows the pipe it reads, and ends after at most twice as many executions as there were
    tasks. */
module SelfFeeding {
  import opened Sums
  import opened Tasks
  import opened Protocol
  import opened Accounting
  import opened Progress
  import opened Stranding
  import opened Order

  /** A thread that is outside the library and has no read event. */
  predicate Outside(th: Thread) {
    !th.armed && !th.inCb && th.call.NoCall?
  }

  /** A byte may still come from what the thread is doing now. */
  function Busy(th: Thread): nat {
    if th.run.Some? || !th.call.NoCall? then 1 else 0
  }

  predicate OwnQueueOnly(q: QueueId, t: Task) {
    t.Hooked() ==> t.resp == q
  }

  predicate OwnCallsOnly(th: Thread, q: QueueId) {
    match th.call
    case NoCall => true
    case Posting(r, t) => r == q && !t.Hooked()
    case Notifying(r, left, retries) => r == q && left == 1 && retries == RETRIES
    case Crediting(_, _) => false
  }

  /** A worker of q busy only with its own queue, or a thread with no part in it. */
  predicate Member(th: Thread, q: QueueId) {
    && (th.home == q || Outside(th))
    && (th.run.Some? ==> OwnQueueOnly(q, th.run.value) && th.call.NoCall?)
    && OwnCallsOnly(th, q)
  }

  /** The room in the pipe of q that a thread may still need: bytes it took out and has not spent,
      and the byte of the response it is working on. */
  function Claim(th: Thread, q: QueueId): nat {
    (if th.home == q then th.credits else 0) + Busy(th)
  }

  ghost function ClaimOn(q: QueueId): Thread -> int {
    (th: Thread) => Claim(th, q)
  }

  ghost predicate SelfFed(s: State, q: QueueId) {
    && s.cfg.policy.AsCoded? && s.cfg.reliable && q < |s.queues|
    && (forall t | t in s.queues[q].tasks :: OwnQueueOnly(q, t))
    && (forall i | 0 <= i < |s.threads| :: Member(s.threads[i], q))
    && s.queues[q].pipe + Sum(s.threads, ClaimOn(q)) <= s.queues[q].capacity
  }

  predicate NoSubmits(run: seq<Step>) {
    forall a | a in run :: !a.Submit?
  }

  lemma OnlyWorkersStep(s: State, a: Step, q: QueueId)
    requires Inv(s) && SelfFed(s, q) && Enabled(s, a) && !a.Submit?
    ensures s.threads[a.i].home == q && Member(s.threads[a.i], q)
  {
    assert ThreadOk(s, s.threads[a.i]) && Member(s.threads[a.i], q);
  }

  /** There is always room for the one byte a response needs, so its write succeeds. */
  lemma WriteSucceeds(s: State, a: Step, q: QueueId)
    requires SelfFed(s, q) && Enabled(s, a) && a.Write? && Member(s.threads[a.i], q)
    ensures a.out == Wrote(1) && NextThread(s, a).call.NoCall?
  {
    SumAtLeast(s.threads, a.i, ClaimOn(q));
  }

  /** A step frees as much of the pipe as it claims. */
  lemma ClaimMove(s: State, a: Step, q: QueueId)
    requires Enabled(s, a) && !a.Submit? && q < |s.queues|
    requires s.threads[a.i].home == q && Member(s.threads[a.i], q)
    requires a.Write? ==> a.out == Wrote(1)
    requires a.Dequeue? ==> s.queues[q].tasks != []
    requires Request(s.queues[q]) == 1
    ensures NextQueue(s, a, q).pipe + Claim(NextThread(s, a), q) <= s.queues[q].pipe + Claim(s.threads[a.i], q)
    ensures NextQueue(s, a, q).capacity == s.queues[q].capacity
  {
  }

  lemma MemberStays(s: State, a: Step, q: QueueId)
    requires Enabled(s, a) && !a.Submit? && q < |s.queues|
    requires s.threads[a.i].home == q && Member(s.threads[a.i], q)
    requires a.Write? ==> a.out == Wrote(1)
    requires Request(s.queues[q]) == 1
    requires forall t | t in s.queues[q].tasks :: OwnQueueOnly(q, t)
    ensures Member(NextThread(s, a), q)
    ensures forall t | t in NextQueue(s, a, q).tasks :: OwnQueueOnly(q, t)
  {
    assert s.queues[q].tasks != [] ==> s.queues[q].tasks[0] in s.queues[q].tasks;
    forall t | t in NextQueue(s, a, q).tasks
      ensures OwnQueueOnly(q, t)
    {
      assert t in s.queues[q].tasks || (a.Post? && t == s.threads[a.i].call.task);
    }
  }

  lemma StepKeepsSelfFed(s: State, a: Step, q: QueueId)
    requires Inv(s) && SelfFed(s, q) && Enabled(s, a) && !a.Submit?
    ensures SelfFed(Next(s, a), q)
    ensures GivenUp(Next(s, a), q) == GivenUp(s, q)
    ensures a.Write? ==> a.out == Wrote(1)
  {
    OnlyWorkersStep(s, a, q);
    OneByteRequests(s, a.i, q);
    ByteImpliesTask(s, a.i);
    assert a.Dequeue? ==> s.queues[q].tasks != [];
    if a.Write? {
      WriteSucceeds(s, a, q);
    }
    assert !a.Credit?;
    ClaimMove(s, a, q);
    MemberStays(s, a, q);
    GivenUpStep(s, a, q);
    NextParts(s, a);
    hide Inv, Enabled, Next, NextThread, NextQueue, NextEvent, Member, Claim, OwnQueueOnly, Sum, GivenUp, Request;
    SumUpdate(s.threads, a.i, NextThread(s, a), ClaimOn(q));
  }

  // ---- Termination measure: a task with a hook weighs 2, any other 1 ----

  function Weight(t: Task): nat { if t.Hooked() then 2 else 1 }

  ghost const WEIGHT: Task -> int := (t: Task) => Weight(t)

  function ThreadLoad(th: Thread): nat {
    (if th.run.Some? then Weight(th.run.value) else 0) + (if th.call.Posting? then 1 else 0)
  }

  ghost const THREAD_LOAD: Thread -> int := (th: Thread) => ThreadLoad(th)

  /** The executions still to come, at most. */
  ghost function Load(s: State, q: QueueId): int
    requires q < |s.queues|
  {
    Sum(s.queues[q].tasks, WEIGHT) + Sum(s.threads, THREAD_LOAD)
  }

  ghost function Executions(s: State, q: QueueId): nat { |FinHistory(s, q)| }

  lemma ExecutionMove(s: State, a: Step, q: QueueId)
    requires Enabled(s, a)
    ensures |Flat(NextEvent(s, a), FinOf(q))| == if a.Return? && s.threads[a.i].home == q then 1 else 0
  {
    FlatOne(NextEvent(s, a), FinOf(q));
  }

  lemma ExecutionsStep(s: State, a: Step, q: QueueId)
    requires Enabled(s, a)
    ensures Executions(Next(s, a), q) ==
              Executions(s, q) + if a.Return? && s.threads[a.i].home == q then 1 else 0
  {
    FlatConcat(s.log, NextEvent(s, a), FinOf(q));
    ExecutionMove(s, a, q);
  }

  lemma WaitingLoad(s: State, a: Step, q: QueueId)
    requires Enabled(s, a) && !a.Submit? && q < |s.queues| && s.threads[a.i].home == q
    requires OwnCallsOnly(s.threads[a.i], q)
    ensures Sum(NextQueue(s, a, q).tasks, WEIGHT) - Sum(s.queues[q].tasks, WEIGHT) ==
              if a.Post? then 1
              else if a.Dequeue? && s.queues[q].tasks != [] then -(Weight(s.queues[q].tasks[0]) as int)
              else 0
  {
    var v := s.queues[q];
    if a.Dequeue? && v.tasks != [] {
      SumCons(v.tasks, WEIGHT);
    } else if a.Post? {
      SumAppend(v.tasks, s.threads[a.i].call.task, WEIGHT);
    }
  }

  lemma LoadMove(s: State, a: Step, q: QueueId)
    requires Enabled(s, a) && !a.Submit? && q < |s.queues| && s.threads[a.i].home == q
    requires Member(s.threads[a.i], q) && (a.Dequeue? ==> s.queues[q].tasks != [])
    ensures Sum(NextQueue(s, a, q).tasks, WEIGHT) + ThreadLoad(NextThread(s, a)) <=
              Sum(s.queues[q].tasks, WEIGHT) + ThreadLoad(s.threads[a.i]) - if a.Return? then 1 else 0
  {
    WaitingLoad(s, a, q);
  }

  /** Every execution lowers the load; nothing raises it. */
  lemma LoadStep(s: State, a: Step, q: QueueId)
    requires Inv(s) && SelfFed(s, q) && Enabled(s, a) && !a.Submit?
    ensures Load(Next(s, a), q) <= Load(s, q) - if a.Return? then 1 else 0
    ensures Executions(Next(s, a), q) == Executions(s, q) + if a.Return? then 1 else 0
  {
    OnlyWorkersStep(s, a, q);
    ExecutionsStep(s, a, q);
    ByteImpliesTask(s, a.i);
    assert a.Dequeue? ==> s.queues[q].tasks != [];
    LoadMove(s, a, q);
    NextParts(s, a);
    hide Inv, SelfFed, Enabled, Next, NextThread, NextQueue, NextEvent, Executions, ThreadLoad, Sum;
    SumUpdate(s.threads, a.i, NextThread(s, a), THREAD_LOAD);
  }

  /** Started in a consistent state and fed only by its own tasks, the executor never fails a
      write, never gives up a notification, never claims more of the pipe than there is, and never
      executes more than the load it began with. */
  lemma {:induction false} DrainIsSafe(s: State, run: seq<Step>, q: QueueId)
    requires Inv(s) && SelfFed(s, q) && CanRun(s, run) && NoSubmits(run)
    ensures var end := After(s, run);
            && Inv(end) && SelfFed(end, q)
            && (forall a | a in run && a.Write? :: a.out == Wrote(1))
            && GivenUp(end, q) == GivenUp(s, q)
            && Executions(end, q) + Load(end, q) <= Executions(s, q) + Load(s, q)
    decreases |run|
  {
    if run != [] {
      assert run[0] in run;
      StepKeepsInv(s, run[0]);
      StepKeepsSelfFed(s, run[0], q);
      LoadStep(s, run[0], q);
      DrainIsSafe(Next(s, run[0]), run[1..], q);
      forall a | a in run && a.Write?
        ensures a.out == Wrote(1)
      {
        assert a == run[0] || a in run[1..];
      }
    }
  }

  lemma {:induction false} LoadAtMostTwice(tasks: seq<Task>)
    ensures |tasks| <= Sum(tasks, WEIGHT) <= 2 * |tasks|
  {
    if tasks != [] {
      LoadAtMostTwice(tasks[..|tasks| - 1]);
    }
  }

  /** Every thread but i is outside taskq_cb and outside any call. */
  predicate LastIn(s: State, i: ThreadId) {
    i < |s.threads| && forall j | 0 <= j < |s.threads| && j != i :: !s.threads[j].inCb && s.threads[j].call.NoCall?
  }

  /** The last worker to leave leaves nothing behind. */
  lemma LastLeavesNothing(s: State, i: ThreadId, q: QueueId)
    requires Inv(s) && SelfFed(s, q) && GivenUp(s, q) == 0 && LastIn(s, i)
    requires Enabled(s, Leave(i)) && s.threads[i].home == q
    ensures s.queues[q].pipe == 0 && s.queues[q].tasks == []
  {
    assert QueueInv(s, q);
    forall th | th in s.threads
      ensures HeldFor(q)(th) == 0
    {
      var j :| 0 <= j < |s.threads| && s.threads[j] == th;
      assert ThreadOk(s, th);
    }
    SumZero(s.threads, HeldFor(q));
  }

  lemma ExecutionsAreBounded(s: State, run: seq<Step>, q: QueueId)
    requires Inv(s) && SelfFed(s, q) && forall th | th in s.threads :: Busy(th) == 0
    requires CanRun(s, run) && NoSubmits(run)
    ensures Executions(After(s, run), q) - Executions(s, q) <= 2 * |s.queues[q].tasks|
  {
    var end := After(s, run);
    DrainIsSafe(s, run, q);
    LoadAtMostTwice(s.queues[q].tasks);
    LoadAtMostTwice(end.queues[q].tasks);
    SumZero(s.threads, THREAD_LOAD);
    SumNonNegative(end.threads, THREAD_LOAD);
    hide Inv, SelfFed, After, CanRun, Executions, Sum;
  }

  /** Any number of workers, none of them busy and nothing given up: they do at most two executions
      per task that was waiting and leave the limit as it was. The last of them to leave taskq_cb
      leaves pipe and queue empty, and so does the system when it stops with a worker. */
  lemma SelfFeedingDrains(s: State, run: seq<Step>, i: ThreadId, q: QueueId)
    requires Inv(s) && SelfFed(s, q) && GivenUp(s, q) == 0
    requires forall th | th in s.threads :: Busy(th) == 0
    requires CanRun(s, run) && NoSubmits(run) && i < |s.threads| && s.threads[i].home == q
    ensures var end := After(s, run);
            && end.queues[q].maxOutstanding == s.queues[q].maxOutstanding == INITIAL_MAX
            && Executions(end, q) - Executions(s, q) <= 2 * |s.queues[q].tasks|
            && ((LastIn(end, i) && Enabled(end, Leave(i))) || (Terminal(end) && HasWorker(end, q)) ==>
                  end.queues[q].pipe == 0 && end.queues[q].tasks == [])
  {
    var end := After(s, run);
    ExecutionsAreBounded(s, run, q);
    DrainIsSafe(s, run, q);
    HomeStays(s, run, i);
    assert QueueInv(s, q) && QueueInv(end, q);
    assert CountersOk(s, q) && CountersOk(end, q);
    hide Inv, QueueInv, SelfFed, Enabled, After, CanRun, Terminal, HasWorker, LastIn, Executions, Sum;
    if LastIn(end, i) && Enabled(end, Leave(i)) {
      LastLeavesNothing(end, i, q);
    } else if Terminal(end) && HasWorker(end, q) {
      NoLostWakeup(end, q);
    }
  }

  lemma {:induction false} HomeStays(s: State, run: seq<Step>, i: ThreadId)
    requires CanRun(s, run) && i < |s.threads|
    ensures After(s, run).threads[i].home == s.threads[i].home
    decreases |run|
  {
    if run != [] {
      HomeStays(Next(s, run[0]), run[1..], i);
    }
  }

  /** Every other thread is outside the library and has no read event. */
  ghost predicate Alone(s: State, i: ThreadId) {
    i < |s.threads| && forall j | 0 <= j < |s.threads| && j != i :: Outside(s.threads[j])
  }

  lemma {:induction false} StaysAlone(s: State, run: seq<Step>, i: ThreadId)
    requires Inv(s) && CanRun(s, run) && NoSubmits(run) && Alone(s, i)
    ensures Alone(After(s, run), i)
    decreases |run|
  {
    if run != [] {
      assert run[0] in run && ThreadOk(s, s.threads[run[0].i]);
      StepKeepsInv(s, run[0]);
      StaysAlone(Next(s, run[0]), run[1..], i);
    }
  }

  /** With one worker, taskq_cb returns only with pipe and queue both empty. */
  lemma LoneWorkerDrains(s: State, run: seq<Step>, i: ThreadId, q: QueueId)
    requires Inv(s) && SelfFed(s, q) && GivenUp(s, q) == 0 && Alone(s, i) && s.threads[i].home == q
    requires CanRun(s, run) && NoSubmits(run) && Enabled(After(s, run), Leave(i))
    ensures After(s, run).queues[q].pipe == 0 && After(s, run).queues[q].tasks == []
  {
    DrainIsSafe(s, run, q);
    StaysAlone(s, run, i);
    HomeStays(s, run, i);
    LastLeavesNothing(After(s, run), i, q);
  }
}
