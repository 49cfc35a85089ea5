/** The set-once assertion for any callers: exactly when it fails, in every state and, once nothing
    waits any more, over what callers submitted; and the case of one object submitted again after
    it was dequeued, one queue at a time. */
module Resubmission {
  import opened Sums
  import opened Tasks
  import opened Protocol
  import opened Accounting
  import opened Flow
  import opened SetOnce
  import opened Progress

  ghost function EnqueuesAt(s: State, q: QueueId, o: ObjectId): int { Sum(s.log, EnqW(At(q, IsObject(o)))) }

  ghost function DequeuesAt(s: State, q: QueueId, o: ObjectId): int { Sum(s.log, DeqW(At(q, IsObject(o)))) }

  lemma EnqueuesAtStep(s: State, a: Step, q: QueueId, o: ObjectId)
    requires Enabled(s, a)
    ensures EnqueuesAt(s, q, o) <= EnqueuesAt(Next(s, a), q, o)
  {
    hide NextEvent, NextThread, NextQueue, Sum;
    SumConcat(s.log, NextEvent(s, a), EnqW(At(q, IsObject(o))));
    SumNonNegative(NextEvent(s, a), EnqW(At(q, IsObject(o))));
  }

  /** Along a run, an object is dequeued in all at least as often as from one queue. */
  lemma {:induction false} HistoryGrows(s: State, run: seq<Step>, q: QueueId, o: ObjectId)
    requires CanRun(s, run) && ExecOk(s)
    ensures ExecOk(After(s, run))
    ensures EnqueuesAt(s, q, o) <= EnqueuesAt(After(s, run), q, o)
    ensures DequeuesAt(After(s, run), q, o) - DequeuesAt(s, q, o) <= Dequeues(After(s, run), o) - Dequeues(s, o)
    decreases |run|
  {
    if run != [] {
      ExecOkKeeps(s, run[0]);
      EnqueuesAtStep(s, run[0], q, o);
      DequeuesStep(s, run[0], o);
      DequeuesAtStep(s, run[0], q, o);
      HistoryGrows(Next(s, run[0]), run[1..], q, o);
    }
  }

  /** A task just submitted to q has been enqueued there and not yet dequeued. */
  lemma SubmittedWaits(s: State, i: ThreadId, q: QueueId, t: Task)
    requires Inv(s) && Enabled(s, Submit(i, q, t))
    ensures var again := Next(s, Submit(i, q, t));
            Inv(again) && DequeuesAt(again, q, t.obj) + 1 <= EnqueuesAt(again, q, t.obj)
  {
    var again := Next(s, Submit(i, q, t));
    StepKeepsInv(s, Submit(i, q, t));
    assert QueueInv(again, q);
    var tasks := again.queues[q].tasks;
    assert tasks[|tasks| - 1] == t;
    SumAtLeast(tasks, |tasks| - 1, IsObject(t.obj));
    QueueFlow(again, q, IsObject(t.obj));
  }

  /** When a queue is empty, everything enqueued on it was dequeued from it. */
  lemma EmptiedQueue(s: State, q: QueueId, o: ObjectId)
    requires Inv(s) && q < |s.queues| && s.queues[q].tasks == []
    ensures DequeuesAt(s, q, o) == EnqueuesAt(s, q, o)
  {
    assert QueueInv(s, q);
    QueueFlow(s, q, IsObject(o));
  }

  /** Submit a task object whose exec_task_q_ a dequeue has already set, and let the system run
      until it stops with nothing given up on that queue: the assertion has failed. */
  lemma ResubmissionFails(s: State, i: ThreadId, q: QueueId, t: Task, run: seq<Step>)
    requires Inv(s) && ExecOk(s) && s.cfg.policy.AsCoded?
    requires t.obj in s.execQ && Enabled(s, Submit(i, q, t))
    requires CanRun(Next(s, Submit(i, q, t)), run)
    requires var end := After(Next(s, Submit(i, q, t)), run);
             Terminal(end) && HasWorker(end, q) && GivenUp(end, q) == 0
    ensures After(Next(s, Submit(i, q, t)), run).setTwice
  {
    var again, o := Next(s, Submit(i, q, t)), t.obj;
    var end := After(again, run);
    SubmittedWaits(s, i, q, t);
    ExecOkKeeps(s, Submit(i, q, t));
    RunKeepsInv(again, run);
    HistoryGrows(again, run, q, o);
    NoLostWakeup(end, q);
    EmptiedQueue(end, q, o);
    hide Inv, Terminal, HasWorker;
    assert 1 <= Dequeues(again, o);
    assert 2 <= Dequeues(end, o);
  }

  // ---- The exact condition ----

  ghost function WaitingIn(v: Task -> int): Queue -> int {
    (q: Queue) => Sum(q.tasks, v)
  }

  /** Copies of object o that wait in some queue or are about to be posted. */
  ghost function Undequeued(s: State, o: ObjectId): int {
    Sum(s.queues, WaitingIn(IsObject(o))) + Sum(s.threads, PostingW(Anywhere(IsObject(o))))
  }

  /** What was enqueued anywhere was dequeued or is waiting somewhere. */
  ghost predicate WaitFlow(s: State, v: Task -> int) {
    Sum(s.log, EnqW(Anywhere(v))) == Sum(s.log, DeqW(Anywhere(v))) + Sum(s.queues, WaitingIn(v))
  }

  ghost predicate MadeIsBorn(s: State) {
    forall o :: 0 <= Births(s, o) && (o in s.made <==> 1 <= Births(s, o))
  }

  lemma WaitMove(s: State, a: Step, v: Task -> int)
    requires Enabled(s, a)
    ensures Sum(NextQueue(s, a, Touched(s, a)).tasks, v) - Sum(s.queues[Touched(s, a)].tasks, v)
         == Sum(NextEvent(s, a), EnqW(Anywhere(v))) - Sum(NextEvent(s, a), DeqW(Anywhere(v)))
  {
    var w := s.queues[Touched(s, a)];
    SumOne(NextEvent(s, a), EnqW(Anywhere(v)));
    SumOne(NextEvent(s, a), DeqW(Anywhere(v)));
    match a
    case Submit(_, _, t) => SumAppend(w.tasks, t, v);
    case Post(_) => SumAppend(w.tasks, s.threads[a.i].call.task, v);
    case Dequeue(_) => if w.tasks != [] { SumCons(w.tasks, v); }
    case _ =>
  }

  lemma WaitFlowKeeps(s: State, a: Step, v: Task -> int)
    requires Enabled(s, a) && WaitFlow(s, v)
    ensures WaitFlow(Next(s, a), v)
  {
    var q := Touched(s, a);
    OnlyTouched(s, a);
    WaitMove(s, a, v);
    NextParts(s, a);
    hide Enabled, Next, NextThread, NextQueue, NextEvent, Touched, Sum;
    SumConcat(s.log, NextEvent(s, a), EnqW(Anywhere(v)));
    SumConcat(s.log, NextEvent(s, a), DeqW(Anywhere(v)));
    SumUpdate(s.queues, q, NextQueue(s, a, q), WaitingIn(v));
  }

  /** Step a brings object o in: submits it, or makes it as a response. */
  predicate Brought(s: State, a: Step, o: ObjectId)
    requires Enabled(s, a)
  {
    (a.Submit? && a.task.obj == o) || (a.Return? && Reply(s, a).Some? && a.obj == o)
  }

  lemma LoggedBirth(s: State, a: Step, o: ObjectId)
    requires Enabled(s, a)
    ensures Sum(NextEvent(s, a), BornW(Anywhere(IsObject(o)))) == if Brought(s, a, o) then 1 else 0
  {
    SumOne(NextEvent(s, a), BornW(Anywhere(IsObject(o))));
  }

  lemma MadeMove(s: State, a: Step, o: ObjectId)
    requires Enabled(s, a)
    ensures o in Next(s, a).made <==> o in s.made || Brought(s, a, o)
    ensures Brought(s, a, o) && o in s.made <==> !FreshStep(s, a) && a.task.obj == o
  {
  }

  lemma BirthsStep(s: State, a: Step, o: ObjectId)
    requires Enabled(s, a)
    ensures Births(Next(s, a), o) == Births(s, o) + if Brought(s, a, o) then 1 else 0
  {
    NextParts(s, a);
    LoggedBirth(s, a, o);
    hide Enabled, Next, NextThread, NextQueue, NextEvent, Brought, Sum;
    SumConcat(s.log, NextEvent(s, a), BornW(Anywhere(IsObject(o))));
  }

  lemma MadeStep(s: State, a: Step)
    requires Enabled(s, a) && MadeIsBorn(s)
    ensures MadeIsBorn(Next(s, a))
    ensures forall o :: Births(s, o) <= Births(Next(s, a), o)
    ensures !FreshStep(s, a) ==> 2 <= Births(Next(s, a), a.task.obj)
  {
    hide Enabled, Next, Births, Brought;
    forall o
      ensures Births(s, o) <= Births(Next(s, a), o)
      ensures 0 <= Births(Next(s, a), o) && (o in Next(s, a).made <==> 1 <= Births(Next(s, a), o))
    {
      BirthsStep(s, a, o);
      MadeMove(s, a, o);
    }
    if !FreshStep(s, a) {
      BirthsStep(s, a, a.task.obj);
      MadeMove(s, a, a.task.obj);
    }
  }

  /** Objects made twice tell whether a run was fresh. */
  lemma {:induction false} StaleRunShows(s: State, run: seq<Step>)
    requires CanRun(s, run) && MadeIsBorn(s)
    ensures forall o :: Births(s, o) <= Births(After(s, run), o)
    ensures !FreshRun(s, run) ==> exists o :: 2 <= Births(After(s, run), o)
    decreases |run|
  {
    hide Enabled, Next, MadeIsBorn, Births;
    if run != [] {
      MadeStep(s, run[0]);
      StaleRunShows(Next(s, run[0]), run[1..]);
      if !FreshStep(s, run[0]) {
        assert 2 <= Births(After(s, run), run[0].task.obj);
      }
    }
  }

  lemma {:induction false} RunKeepsCounts(s: State, run: seq<Step>, o: ObjectId)
    requires CanRun(s, run) && ExecOk(s) && WaitFlow(s, IsObject(o)) && BirthFlow(s, Anywhere(IsObject(o)))
    ensures var end := After(s, run);
            ExecOk(end) && WaitFlow(end, IsObject(o)) && BirthFlow(end, Anywhere(IsObject(o)))
    decreases |run|
  {
    hide Enabled, Next, ExecOk, WaitFlow, BirthFlow;
    if run != [] {
      ExecOkKeeps(s, run[0]);
      WaitFlowKeeps(s, run[0], IsObject(o));
      BirthFlowKeeps(s, run[0], Anywhere(IsObject(o)));
      RunKeepsCounts(Next(s, run[0]), run[1..], o);
    }
  }

  lemma InitCounts(s: State, o: ObjectId)
    requires Init(s)
    ensures ExecOk(s) && WaitFlow(s, IsObject(o)) && BirthFlow(s, Anywhere(IsObject(o))) && MadeIsBorn(s)
  {
    SumZero(s.queues, WaitingIn(IsObject(o)));
    InitFlow(s, Anywhere(IsObject(o)));
  }

  /** In every state any callers can reach, an object was dequeued as often as it was made, but
      for its copies that still wait. */
  lemma DequeuedUnlessWaiting(s: State, run: seq<Step>, o: ObjectId)
    requires Init(s) && CanRun(s, run)
    ensures ExecOk(After(s, run))
    ensures Dequeues(After(s, run), o) == Births(After(s, run), o) - Undequeued(After(s, run), o)
  {
    InitCounts(s, o);
    RunKeepsCounts(s, run, o);
  }

  /** The set-once assertion, exactly, for any callers and at every moment: it has failed if and
      only if some object was brought in at least twice more often than copies of it still wait. */
  lemma AssertionFailsIff(s: State, run: seq<Step>)
    requires Init(s) && CanRun(s, run)
    ensures var end := After(s, run);
            end.setTwice <==> exists o :: 2 <= Births(end, o) - Undequeued(end, o)
  {
    var end := After(s, run);
    DequeuedUnlessWaiting(s, run, 0);
    forall o
      ensures Dequeues(end, o) == Births(end, o) - Undequeued(end, o)
    {
      DequeuedUnlessWaiting(s, run, o);
    }
    hide Births, Undequeued, Dequeues, After, CanRun, Init;
    if end.setTwice {
      var o :| 2 <= Dequeues(end, o);
      assert 2 <= Births(end, o) - Undequeued(end, o);
    }
    if o :| 2 <= Births(end, o) - Undequeued(end, o) {
      assert 2 <= Dequeues(end, o);
    }
  }

  /** Nothing waits in a queue or is about to be posted to one. */
  ghost predicate NothingWaits(s: State) {
    && (forall q | q in s.queues :: q.tasks == [])
    && (forall th | th in s.threads :: !th.call.Posting?)
  }

  /** The condition callers can check: once nothing waits any more, the assertion has failed if
      and only if at some point an object was submitted that had been submitted before, or that
      the library had made. */
  lemma SetOnceIffFresh(s: State, run: seq<Step>)
    requires Init(s) && CanRun(s, run) && NothingWaits(After(s, run))
    ensures After(s, run).setTwice <==> !FreshRun(s, run)
  {
    var end := After(s, run);
    AssertionFailsIff(s, run);
    forall o
      ensures Undequeued(end, o) == 0
    {
      SumZero(end.queues, WaitingIn(IsObject(o)));
      SumZero(end.threads, PostingW(Anywhere(IsObject(o))));
    }
    InitSafe(s);
    if FreshRun(s, run) {
      FreshRunsAreSafe(s, run);
    } else {
      InitCounts(s, 0);
      StaleRunShows(s, run);
      var o :| 2 <= Births(end, o);
      assert 2 <= Births(end, o) - Undequeued(end, o);
    }
  }
}
