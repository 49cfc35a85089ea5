/** The assertion in set_exec_task_q: exec_task_q_ is null when a dequeue sets it. */
module SetOnce {
  import opened Sums
  import opened Tasks
  import opened Protocol
  import opened Accounting
  import opened Flow

  ghost function IsObject(o: ObjectId): Task -> int {
    (t: Task) => if t.obj == o then 1 else 0
  }

  ghost function Anywhere(v: Task -> int): Weight {
    (q: QueueId, t: Task) => v(t)
  }

  ghost function Births(s: State, o: ObjectId): int { Sum(s.log, BornW(Anywhere(IsObject(o)))) }

  ghost function Dequeues(s: State, o: ObjectId): int { Sum(s.log, DeqW(Anywhere(IsObject(o)))) }

  /** Callers submit each object at most once, and never one the library allocated. */
  predicate FreshStep(s: State, a: Step) {
    a.Submit? ==> a.task.obj !in s.made
  }

  ghost predicate FreshRun(s: State, run: seq<Step>)
    decreases |run|
  {
    run == [] ||
    (Enabled(s, run[0]) && FreshStep(s, run[0]) && FreshRun(Next(s, run[0]), run[1..]))
  }

  /** exec_task_q_ is set on exactly the objects that were dequeued, and names a queue the object
      was dequeued from; the assertion has failed exactly if some object was dequeued twice. */
  ghost predicate ExecOk(s: State) {
    && (forall o :: 0 <= Dequeues(s, o) && (o in s.execQ <==> 1 <= Dequeues(s, o)))
    && (forall o | o in s.execQ ::
          s.execQ[o] < |s.queues| && 1 <= Sum(s.log, DeqW(At(s.execQ[o], IsObject(o)))))
    && (s.setTwice <==> exists o :: 2 <= Dequeues(s, o))
  }

  /** No object is made twice. */
  ghost predicate UniqueBirths(s: State) {
    forall o :: 0 <= Births(s, o) <= (if o in s.made then 1 else 0)
  }

  ghost predicate AllFlows(s: State) {
    forall w: Weight :: BirthFlow(s, w) && RunFlow(s, w)
  }

  lemma DequeuesStep(s: State, a: Step, o: ObjectId)
    requires Enabled(s, a)
    ensures Dequeues(Next(s, a), o) ==
              Dequeues(s, o) + if a.Dequeue? && s.queues[s.threads[a.i].home].tasks != []
                                  && s.queues[s.threads[a.i].home].tasks[0].obj == o then 1 else 0
  {
    SumConcat(s.log, NextEvent(s, a), DeqW(Anywhere(IsObject(o))));
    SumOne(NextEvent(s, a), DeqW(Anywhere(IsObject(o))));
  }

  lemma DequeuesAtStep(s: State, a: Step, q: QueueId, o: ObjectId)
    requires Enabled(s, a)
    ensures Sum(Next(s, a).log, DeqW(At(q, IsObject(o)))) ==
              Sum(s.log, DeqW(At(q, IsObject(o))))
              + if a.Dequeue? && s.queues[s.threads[a.i].home].tasks != []
                   && s.threads[a.i].home == q
                   && s.queues[s.threads[a.i].home].tasks[0].obj == o then 1 else 0
  {
    SumConcat(s.log, NextEvent(s, a), DeqW(At(q, IsObject(o))));
    SumOne(NextEvent(s, a), DeqW(At(q, IsObject(o))));
  }

  /** The assertion's verdict, exactly, over every run of any callers. */
  lemma ExecOkKeeps(s: State, a: Step)
    requires Enabled(s, a) && ExecOk(s)
    ensures ExecOk(Next(s, a))
  {
    var s' := Next(s, a);
    forall o
      ensures 0 <= Dequeues(s', o) && (o in s'.execQ <==> 1 <= Dequeues(s', o))
    {
      DequeuesStep(s, a, o);
    }
    forall o | o in s'.execQ
      ensures s'.execQ[o] < |s'.queues| && 1 <= Sum(s'.log, DeqW(At(s'.execQ[o], IsObject(o))))
    {
      DequeuesAtStep(s, a, s'.execQ[o], o);
      SumNonNegative(s.log, DeqW(At(s'.execQ[o], IsObject(o))));
    }
    TwiceKeeps(s, a);
  }

  lemma TwiceKeeps(s: State, a: Step)
    requires Enabled(s, a) && ExecOk(s)
    ensures Next(s, a).setTwice <==> exists o :: 2 <= Dequeues(Next(s, a), o)
  {
    var s' := Next(s, a);
    if s'.setTwice {
      var o :| 2 <= Dequeues(s, o) || (!s.setTwice && o in s.execQ && a.Dequeue?
                                       && s.queues[s.threads[a.i].home].tasks != []
                                       && s.queues[s.threads[a.i].home].tasks[0].obj == o);
      DequeuesStep(s, a, o);
      assert 2 <= Dequeues(s', o);
    }
    if o :| 2 <= Dequeues(s', o) {
      DequeuesStep(s, a, o);
    }
  }

  lemma UniqueBirthsKeep(s: State, a: Step)
    requires Enabled(s, a) && FreshStep(s, a) && UniqueBirths(s)
    ensures UniqueBirths(Next(s, a))
  {
    forall o
      ensures 0 <= Births(Next(s, a), o) <= if o in Next(s, a).made then 1 else 0
    {
      assert 0 <= Births(s, o) <= if o in s.made then 1 else 0;
      SumConcat(s.log, NextEvent(s, a), BornW(Anywhere(IsObject(o))));
      SumOne(NextEvent(s, a), BornW(Anywhere(IsObject(o))));
    }
  }

  lemma EnqueuedAtMostOnce(s: State, o: ObjectId)
    requires AllFlows(s) && UniqueBirths(s)
    ensures Sum(s.log, EnqW(Anywhere(IsObject(o)))) <= 1
  {
    assert BirthFlow(s, Anywhere(IsObject(o)));
    assert Births(s, o) <= 1;
    SumNonNegative(s.threads, PostingW(Anywhere(IsObject(o))));
  }

  /** If callers submit each object at most once, a task at the front of a queue still has a null
      exec_task_q_, whichever queue and whichever worker. */
  lemma FrontIsUnclaimed(s: State, q: QueueId)
    requires Inv(s) && AllFlows(s) && UniqueBirths(s) && ExecOk(s)
    requires q < |s.queues| && s.queues[q].tasks != []
    ensures s.queues[q].tasks[0].obj !in s.execQ
  {
    var o := s.queues[q].tasks[0].obj;
    var v := IsObject(o);
    if o in s.execQ {
      var r := s.execQ[o];
      assert QueueInv(s, q) && QueueInv(s, r);
      QueueFlow(s, q, v);
      QueueFlow(s, r, v);
      SumAtLeast(s.queues[q].tasks, 0, v);
      SumNonNegative(s.queues[r].tasks, v);
      SumNonNegative(s.log, DeqW(At(q, v)));
      EnqueuedAtMostOnce(s, o);
      if r == q {
        SumMonotone(s.log, EnqW(At(q, v)), EnqW(Anywhere(v)));
      } else {
        SumPair(s.log, EnqW(At(q, v)), EnqW(At(r, v)), EnqW(Anywhere(v)));
      }
      assert false;
    }
  }

  ghost predicate SafeInv(s: State) {
    Inv(s) && AllFlows(s) && UniqueBirths(s) && ExecOk(s) && !s.setTwice
  }

  lemma InitSafe(s: State)
    requires Init(s)
    ensures SafeInv(s)
  {
    InitInv(s);
    forall w: Weight
      ensures BirthFlow(s, w) && RunFlow(s, w)
    {
      InitFlow(s, w);
    }
  }

  lemma StepKeepsSafe(s: State, a: Step)
    requires SafeInv(s) && Enabled(s, a) && FreshStep(s, a)
    ensures SafeInv(Next(s, a))
  {
    StepKeepsInv(s, a);
    forall w: Weight
      ensures BirthFlow(Next(s, a), w) && RunFlow(Next(s, a), w)
    {
      assert BirthFlow(s, w);
      BirthFlowKeeps(s, a, w);
      RunFlowKeeps(s, a, w);
    }
    UniqueBirthsKeep(s, a);
    ExecOkKeeps(s, a);
    if a.Dequeue? && s.queues[s.threads[a.i].home].tasks != [] {
      FrontIsUnclaimed(s, s.threads[a.i].home);
    }
  }

  /** Over every run in which callers submit each object at most once: no null dereference, no
      failed set-once assertion, and every invariant of the protocol. */
  lemma {:induction false} FreshRunsAreSafe(s: State, run: seq<Step>)
    requires SafeInv(s) && FreshRun(s, run)
    ensures CanRun(s, run) && SafeInv(After(s, run))
    decreases |run|
  {
    if run != [] {
      StepKeepsSafe(s, run[0]);
      FreshRunsAreSafe(Next(s, run[0]), run[1..]);
    }
  }
}
