/** What a submitter may rely on: its task function runs once, and then exactly the response
    chosen by the outcome and the hooks runs once, on the reply queue it named. */
module Delivery {
  import opened Sums
  import opened Tasks
  import opened Protocol
  import opened Accounting
  import opened Flow
  import opened SetOnce
  import opened Progress

  ghost function Is(x: Task): Task -> int {
    (t: Task) => if t == x then 1 else 0
  }

  /** How often task object x finished running: on queue q, and on any queue. */
  ghost function RunsAt(s: State, q: QueueId, x: Task): int { Sum(s.log, DoneW(At(q, Is(x)))) }

  ghost function Runs(s: State, x: Task): int { Sum(s.log, DoneW(Anywhere(Is(x)))) }

  // ---- Cause and effect in the log ----

  ghost predicate EnqueuedBefore(log: seq<Event>, n: nat, q: QueueId, t: Task)
    requires n <= |log|
  {
    exists j :: 0 <= j < n && log[j].Enqueued? && log[j].q == q && log[j].task == t
  }

  ghost predicate RepliedBefore(log: seq<Event>, n: nat, q: QueueId, r: Task)
    requires n <= |log|
  {
    exists j :: 0 <= j < n && log[j].Finished? && log[j].reply == Some(r) && log[j].task.resp == q
  }

  /** Event n of a log is accounted for by the events before it. */
  ghost predicate Caused(log: seq<Event>, n: nat)
    requires n < |log|
  {
    match log[n]
    case Enqueued(q, t, submitted) => submitted || RepliedBefore(log, n, q, t)
    case Finished(q, t, o, reply) => EnqueuedBefore(log, n, q, t) && ReplyIsResponse(t, o, q, reply)
    case _ => true
  }

  ghost predicate CausalInv(s: State) {
    && (forall n | 0 <= n < |s.log| :: Caused(s.log, n))
    && (forall e | e in s.log && e.Enqueued? :: e.q < |s.queues| && TaskOk(s, e.task))
    && (forall i | 0 <= i < |s.threads| && s.threads[i].call.Posting? ::
          RepliedBefore(s.log, |s.log|, s.threads[i].call.q, s.threads[i].call.task))
  }

  lemma CausedExtends(log: seq<Event>, more: seq<Event>, n: nat)
    requires n < |log| && Caused(log, n)
    ensures Caused(log + more, n)
  {
    var l := log + more;
    match log[n]
    case Enqueued(q, t, submitted) =>
      if !submitted {
        RepliedExtends(log, more, n, q, t);
      }
    case Finished(q, t, _, _) =>
      var j :| 0 <= j < n && log[j].Enqueued? && log[j].q == q && log[j].task == t;
      assert l[j] == log[j];
    case _ =>
  }

  lemma RepliedExtends(log: seq<Event>, more: seq<Event>, n: nat, q: QueueId, r: Task)
    requires n <= |log| && RepliedBefore(log, n, q, r)
    ensures RepliedBefore(log + more, n, q, r)
  {
    var j :| 0 <= j < n && log[j].Finished? && log[j].reply == Some(r) && log[j].task.resp == q;
    assert (log + more)[j] == log[j];
  }

  /** A running task was dequeued from its worker's queue, and so was enqueued there. */
  lemma RunningWasEnqueued(s: State, i: ThreadId)
    requires SafeInv(s) && i < |s.threads| && s.threads[i].run.Some?
    ensures var th := s.threads[i];
            && th.home < |s.queues|
            && EnqueuedBefore(s.log, |s.log|, th.home, th.run.value)
            && 1 <= Sum(s.log, DeqW(At(th.home, Is(th.run.value))))
  {
    var th := s.threads[i];
    assert ThreadOk(s, th) && QueueInv(s, th.home);
    var v := Is(th.run.value);
    assert RunFlow(s, At(th.home, v));
    SumAtLeast(s.threads, i, RunningW(At(th.home, v)));
    SumNonNegative(s.log, DoneW(At(th.home, v)));
    QueueFlow(s, th.home, v);
    SumNonNegative(s.queues[th.home].tasks, v);
    var j := SumPositive(s.log, EnqW(At(th.home, v)));
  }

  /** The reply address of a running task is the queue its worker serves. */
  lemma RunningHome(s: State, i: ThreadId)
    requires SafeInv(s) && i < |s.threads| && s.threads[i].run.Some?
    ensures var th := s.threads[i];
            th.run.value.obj in s.execQ && s.execQ[th.run.value.obj] == th.home
  {
    var th := s.threads[i];
    assert ThreadOk(s, th);
    var t, q := th.run.value, th.home;
    var r := s.execQ[t.obj];
    var v := IsObject(t.obj);
    RunningWasEnqueued(s, i);
    SumMonotone(s.log, DeqW(At(q, Is(t))), DeqW(At(q, v)));
    assert !(2 <= Dequeues(s, t.obj));
    if r != q {
      SumPair(s.log, DeqW(At(q, v)), DeqW(At(r, v)), DeqW(Anywhere(v)));
      assert false;
    }
  }

  lemma StepKeepsCausal(s: State, a: Step)
    requires SafeInv(s) && Enabled(s, a) && CausalInv(s)
    ensures CausalInv(Next(s, a))
  {
    var s', e := Next(s, a), NextEvent(s, a);
    forall n | 0 <= n < |s'.log|
      ensures Caused(s'.log, n)
    {
      if n < |s.log| {
        CausedExtends(s.log, e, n);
      } else {
        NewEventCaused(s, a);
      }
    }
    assert ThreadOk(s, s.threads[a.i]);
    forall i | 0 <= i < |s'.threads| && s'.threads[i].call.Posting?
      ensures RepliedBefore(s'.log, |s'.log|, s'.threads[i].call.q, s'.threads[i].call.task)
    {
      if i != a.i || !a.Return? {
        assert s.threads[i].call == s'.threads[i].call;
        RepliedExtends(s.log, e, |s.log|, s.threads[i].call.q, s.threads[i].call.task);
      } else {
        assert s'.log[|s.log|].Finished?;
      }
    }
  }

  lemma NewEventCaused(s: State, a: Step)
    requires SafeInv(s) && Enabled(s, a) && CausalInv(s) && NextEvent(s, a) != []
    ensures Caused(Next(s, a).log, |s.log|)
  {
    var l := Next(s, a).log;
    assert l[|s.log|] == NextEvent(s, a)[0];
    if a.Post? {
      var c := s.threads[a.i].call;
      RepliedExtends(s.log, NextEvent(s, a), |s.log|, c.q, c.task);
    } else if a.Return? {
      var th := s.threads[a.i];
      RunningWasEnqueued(s, a.i);
      RunningHome(s, a.i);
      var j :| 0 <= j < |s.log| && s.log[j].Enqueued? && s.log[j].q == th.home && s.log[j].task == th.run.value;
      assert l[j] == s.log[j];
    }
  }

  lemma {:induction false} FreshRunsAreCausal(s: State, run: seq<Step>)
    requires SafeInv(s) && CausalInv(s) && FreshRun(s, run)
    ensures CanRun(s, run) && SafeInv(After(s, run)) && CausalInv(After(s, run))
    decreases |run|
  {
    if run != [] {
      StepKeepsSafe(s, run[0]);
      StepKeepsCausal(s, run[0]);
      FreshRunsAreCausal(Next(s, run[0]), run[1..]);
    }
  }

  // ---- Exactly once ----

  /** In a settled state in which queue q has lost nothing, whatever was made for q ran there,
      and nowhere else, exactly once. */
  lemma MadeRunsOnce(s: State, q: QueueId, x: Task)
    requires SafeInv(s) && AllQuiet(s) && q < |s.queues| && s.queues[q].tasks == []
    requires 1 <= Sum(s.log, BornW(At(q, Is(x))))
    ensures RunsAt(s, q, x) == 1 && Runs(s, x) == 1
  {
    assert QueueInv(s, q);
    var w := At(q, Is(x));
    assert BirthFlow(s, w) && RunFlow(s, w);
    QueueConservation(s, q, Is(x));
    SumZero(s.threads, RunningW(w));
    SumZero(s.threads, PostingW(w));
    RunsAtMostOnce(s, x);
    SumMonotone(s.log, DoneW(w), DoneW(Anywhere(Is(x))));
  }

  /** In every state of a fresh run no task object has run twice. */
  lemma RunsAtMostOnce(s: State, x: Task)
    requires SafeInv(s)
    ensures 0 <= Runs(s, x) <= 1
  {
    var v := IsObject(x.obj);
    assert RunFlow(s, Anywhere(v));
    SumNonNegative(s.threads, RunningW(Anywhere(v)));
    SumMonotone(s.log, DoneW(Anywhere(Is(x))), DoneW(Anywhere(v)));
    SumNonNegative(s.log, DoneW(Anywhere(Is(x))));
    assert !(2 <= Dequeues(s, x.obj));
  }

  /** Nothing but submissions and shutdowns is left to happen, queue q has a worker, and no
      notification of it is missing: given up, as coded, or outstanding, as intended. */
  ghost predicate SettledAt(s: State, q: QueueId) {
    && Terminal(s) && q < |s.queues| && HasWorker(s, q)
    && match s.cfg.policy
       case AsCoded => GivenUp(s, q) == 0
       case Intended => s.queues[q].numOutstanding == 0
  }

  /** Event e brings object o into the system: it submits it, or makes it as a response. */
  ghost predicate Bears(e: Event, o: ObjectId) {
    BornW(Anywhere(IsObject(o)))(e) == 1
  }

  lemma BirthIsUnique(s: State, j: nat, k: nat, o: ObjectId)
    requires SafeInv(s) && j < |s.log| && k < |s.log| && Bears(s.log[j], o) && Bears(s.log[k], o)
    ensures j == k
  {
    assert Births(s, o) <= 1;
    if j < k {
      SumAtLeastTwo(s.log, j, k, BornW(Anywhere(IsObject(o))));
    } else if k < j {
      SumAtLeastTwo(s.log, k, j, BornW(Anywhere(IsObject(o))));
    }
  }

  /** A task finishes after the one event that brought it into the system. */
  lemma FinishesAfterBirth(s: State, b: nat, f: nat)
    requires SafeInv(s) && CausalInv(s) && b < |s.log| && f < |s.log|
    requires s.log[f].Finished? && Bears(s.log[b], s.log[f].task.obj)
    ensures b < f
  {
    var e := s.log[f];
    assert Caused(s.log, f);
    var j :| 0 <= j < f && s.log[j].Enqueued? && s.log[j].q == e.q && s.log[j].task == e.task;
    assert Caused(s.log, j);
    if s.log[j].submitted {
      assert Bears(s.log[j], e.task.obj);
      BirthIsUnique(s, b, j, e.task.obj);
    } else {
      var k :| 0 <= k < j && s.log[k].Finished? && s.log[k].reply == Some(e.task) && s.log[k].task.resp == e.q;
      assert Bears(s.log[k], e.task.obj);
      BirthIsUnique(s, b, k, e.task.obj);
    }
  }

  /** What one event brought in for a settled queue q finished once, later, on q. */
  lemma BornRunsOnce(s: State, b: nat, q: QueueId, x: Task) returns (f: nat)
    requires SafeInv(s) && CausalInv(s) && SettledAt(s, q)
    requires b < |s.log| && BornW(At(q, Is(x)))(s.log[b]) == 1
    ensures b < f < |s.log| && s.log[f].Finished? && s.log[f].task == x && s.log[f].q == q
    ensures RunsAt(s, q, x) == 1 && Runs(s, x) == 1
    ensures ReplyIsResponse(x, s.log[f].outcome, q, s.log[f].reply)
  {
    TerminalIsQuiet(s);
    NoLostWakeup(s, q);
    SumAtLeast(s.log, b, BornW(At(q, Is(x))));
    MadeRunsOnce(s, q, x);
    f := SumPositive(s.log, DoneW(At(q, Is(x))));
    assert Caused(s.log, f);
    assert Bears(s.log[b], x.obj);
    FinishesAfterBirth(s, b, f);
  }

  /** The sequential meaning of submitting event j: at f the task has finished, on the queue it
      was submitted to, the only time it ever runs. The outcome and the hooks say whether a
      response was made; if so it has finished at g, on the reply queue, the only time it ever
      runs, and whatever its own outcome was it made no response in turn. */
  ghost predicate DeliveredOnce(s: State, j: nat, f: nat, g: nat)
    requires j < |s.log| && s.log[j].Enqueued?
  {
    var Enqueued(q, t, _) := s.log[j];
    && j < f < |s.log| && s.log[f].Finished? && s.log[f].task == t && s.log[f].q == q
    && RunsAt(s, q, t) == 1 && Runs(s, t) == 1
    && ReplyIsResponse(t, s.log[f].outcome, q, s.log[f].reply)
    && (s.log[f].reply.Some? ==>
          var r := s.log[f].reply.value;
          && f < g < |s.log| && s.log[g].Finished? && s.log[g].task == r && s.log[g].q == t.resp
          && RunsAt(s, t.resp, r) == 1 && Runs(s, r) == 1
          && s.log[g].reply.None?)
  }

  lemma SubmittedIsDelivered(s: State, j: nat) returns (f: nat, g: nat)
    requires SafeInv(s) && CausalInv(s)
    requires j < |s.log| && s.log[j].Enqueued? && s.log[j].submitted
    requires SettledAt(s, s.log[j].q) && (s.log[j].task.Hooked() ==> SettledAt(s, s.log[j].task.resp))
    ensures DeliveredOnce(s, j, f, g)
  {
    var Enqueued(q, t, _) := s.log[j];
    f := BornRunsOnce(s, j, q, t);
    g := f;
    if s.log[f].reply.Some? {
      assert t.Hooked();
      g := BornRunsOnce(s, f, t.resp, s.log[f].reply.value);
    }
  }

  /** Exactly-once delivery, over every interleaving of any callers that submit each object at
      most once, once the system has stopped, if the queue submitted to and, for a task with a
      hook, the reply queue are served and miss no notification. Other queues do not matter. */
  lemma ExactlyOnceDelivery(s: State, run: seq<Step>, j: nat) returns (f: nat, g: nat)
    requires Init(s) && FreshRun(s, run) && CanRun(s, run)
    requires var end := After(s, run);
             && j < |end.log| && end.log[j].Enqueued? && end.log[j].submitted
             && SettledAt(end, end.log[j].q)
             && (end.log[j].task.Hooked() ==> SettledAt(end, end.log[j].task.resp))
    ensures DeliveredOnce(After(s, run), j, f, g)
  {
    InitSafe(s);
    FreshRunsAreCausal(s, run);
    f, g := SubmittedIsDelivered(After(s, run), j);
  }

  // ---- At most once, in every state ----

  lemma DequeuedOnce(s: State, o: ObjectId)
    requires SafeInv(s)
    ensures Sum(s.log, DoneW(Anywhere(IsObject(o)))) <= 1
  {
    assert RunFlow(s, Anywhere(IsObject(o)));
    SumNonNegative(s.threads, RunningW(Anywhere(IsObject(o))));
    assert !(2 <= Dequeues(s, o));
  }

  lemma FinishIsUnique(s: State, f: nat, f': nat)
    requires SafeInv(s) && f < |s.log| && f' < |s.log| && s.log[f].Finished? && s.log[f'].Finished?
    requires s.log[f].task.obj == s.log[f'].task.obj
    ensures f == f'
  {
    var w := DoneW(Anywhere(IsObject(s.log[f].task.obj)));
    DequeuedOnce(s, s.log[f].task.obj);
    if f < f' {
      SumAtLeastTwo(s.log, f, f', w);
    } else if f' < f {
      SumAtLeastTwo(s.log, f', f, w);
    }
  }

  /** Where a reply can finish: after the event that made it, on the queue that asked for it. */
  lemma ReplyFinishes(s: State, f: nat, g: nat)
    requires SafeInv(s) && CausalInv(s) && f < |s.log| && g < |s.log|
    requires s.log[f].Finished? && s.log[f].reply.Some? && s.log[g].Finished?
    requires s.log[g].task.obj == s.log[f].reply.value.obj
    ensures f < g && s.log[g].task == s.log[f].reply.value && s.log[g].q == s.log[f].task.resp
    ensures s.log[g].reply.None?
  {
    var e := s.log[g];
    assert Bears(s.log[f], e.task.obj);
    FinishesAfterBirth(s, f, g);
    assert Caused(s.log, f) && Caused(s.log, g);
    var j :| 0 <= j < g && s.log[j].Enqueued? && s.log[j].q == e.q && s.log[j].task == e.task;
    assert Caused(s.log, j);
    if s.log[j].submitted {
      assert Bears(s.log[j], e.task.obj);
      BirthIsUnique(s, f, j, e.task.obj);
    } else {
      var k :| 0 <= k < j && s.log[k].Finished? && s.log[k].reply == Some(e.task) && s.log[k].task.resp == e.q;
      assert Bears(s.log[k], e.task.obj);
      BirthIsUnique(s, f, k, e.task.obj);
    }
  }

  /** At most once, at every moment of every run of callers that submit each object at most once,
      whatever was given up or shut down: no object finishes twice; of the object a reply makes,
      nothing else is made, and it finishes, if at all, later and on the reply queue; and it makes
      no reply in turn. */
  lemma AtMostOnceDelivery(s: State, run: seq<Step>, f: nat, g: nat)
    requires Init(s) && FreshRun(s, run) && CanRun(s, run)
    requires var log := After(s, run).log;
             f < |log| && g < |log| && log[f].Finished? && log[g].Finished?
    ensures var log := After(s, run).log;
            && (log[f].task.obj == log[g].task.obj ==> f == g)
            && (log[f].reply.Some? && log[f].reply.value.obj == log[g].task.obj ==>
                  && f < g && log[g].task == log[f].reply.value && log[g].q == log[f].task.resp
                  && log[g].reply.None?)
            && (log[f].reply.Some? && log[g].reply.Some? && log[f].reply.value.obj == log[g].reply.value.obj ==>
                  f == g)
  {
    var end := After(s, run);
    InitSafe(s);
    FreshRunsAreCausal(s, run);
    if end.log[f].task.obj == end.log[g].task.obj {
      FinishIsUnique(end, f, g);
    }
    if end.log[f].reply.Some? {
      var o := end.log[f].reply.value.obj;
      assert Bears(end.log[f], o);
      if end.log[g].task.obj == o {
        ReplyFinishes(end, f, g);
      }
      if end.log[g].reply.Some? && end.log[g].reply.value.obj == o {
        assert Bears(end.log[g], o);
        BirthIsUnique(end, f, g, o);
      }
    }
  }

  /** In every such run: a response calls the errback, with the code, exactly if the function
      threw and an errback was set; it calls the callback, with the result, exactly if the function
      returned and a callback was set; with neither there is none. What a response itself does, if
      it throws included, is answered by nothing. */
  lemma HookChoice(s: State, run: seq<Step>, f: nat)
    requires Init(s) && FreshRun(s, run) && CanRun(s, run)
    requires f < |After(s, run).log| && After(s, run).log[f].Finished?
    ensures var log := After(s, run).log;
            var Finished(q, t, o, reply) := log[f];
            && (forall eb: nat, code: int :: reply.Some? && reply.value.work == Errback(eb, code)
                  <==> o == Threw(code) && t.errback == Some(eb))
            && (forall cb: nat, v: int :: reply.Some? && reply.value.work == Callback(cb, v)
                  <==> o == Returned(v) && t.callback == Some(cb))
            && (reply.None? <==> if o.Threw? then t.errback.None? else t.callback.None?)
            && (reply.Some? ==> reply.value.resp == q)
            && (RepliedBefore(log, f, q, t) ==> reply.None?)
  {
    var end := After(s, run);
    InitSafe(s);
    FreshRunsAreCausal(s, run);
    assert Caused(end.log, f);
    var Finished(q, t, o, reply) := end.log[f];
    if reply.Some? {
      assert ResponseWork(t, o)[0] == reply.value.work;
    }
    if RepliedBefore(end.log, f, q, t) {
      var k :| 0 <= k < f && end.log[k].Finished? && end.log[k].reply == Some(t) && end.log[k].task.resp == q;
      assert Caused(end.log, k);
    }
  }

  /** Nothing else ever runs, in any such run: what finishes was submitted to that queue earlier, or
      is the reply to a task that finished earlier and named that queue. */
  lemma OnlySubmissionsAndRepliesRun(s: State, run: seq<Step>, f: nat)
    requires Init(s) && FreshRun(s, run) && CanRun(s, run)
    requires f < |After(s, run).log| && After(s, run).log[f].Finished?
    ensures var log := After(s, run).log;
            || (exists j :: 0 <= j < f && log[j] == Enqueued(log[f].q, log[f].task, true))
            || RepliedBefore(log, f, log[f].q, log[f].task)
  {
    InitSafe(s);
    FreshRunsAreCausal(s, run);
    var log := After(s, run).log;
    hide SafeInv, After, FreshRun, CanRun, Init;
    assert Caused(log, f);
    var q, t := log[f].q, log[f].task;
    var j :| 0 <= j < f && log[j].Enqueued? && log[j].q == q && log[j].task == t;
    assert Caused(log, j);
    if !log[j].submitted {
      var k :| 0 <= k < j && log[k].Finished? && log[k].reply == Some(t) && log[k].task.resp == q;
    }
  }
}
