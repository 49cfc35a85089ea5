/** No lost wake-up: every step other than a new submission lowers a rank, and a state in which
    nothing but a submission or a shutdown can happen has no unspent notification. */
module Progress {
  import opened Sums
  import opened Tasks
  import opened Protocol
  import opened Accounting

  // ---- The rank ----

  /** Steps still owed to a task in a queue: its dequeue and its return, and for a task with a
      hook also the posting, notification and run of its response. */
  function TaskCost(t: Task): nat { if t.Hooked() then 10 else 2 }

  ghost const TASK_COST: Task -> int := (t: Task) => TaskCost(t)

  ghost function QueueCost(v: Queue): int {
    Sum(v.tasks, TASK_COST) + v.pipe + v.numOutstanding
  }

  ghost const QUEUE_COST: Queue -> int := (v: Queue) => QueueCost(v)

  function CallCost(c: Call): nat {
    match c
    case NoCall => 0
    case Posting(_, t) => TaskCost(t) + 6
    case Notifying(_, left, retries) => left + retries + 1
    case Crediting(_, short) => short + 1
  }

  function ThreadCost(th: Thread): nat {
    (if th.run.Some? then TaskCost(th.run.value) - 1 else 0) + CallCost(th.call) + (if th.armed then 1 else 0)
  }

  ghost const THREAD_COST: Thread -> int := (th: Thread) => ThreadCost(th)

  ghost function Work(s: State): int {
    Sum(s.queues, QUEUE_COST) + Sum(s.threads, THREAD_COST)
  }

  /** A thread that has yet to notice whether its pipe is readable. */
  function Unsettled(queues: seq<Queue>, th: Thread): nat {
    if th.home < |queues| && 0 < queues[th.home].pipe
    then (if th.inCb then 0 else 1)
    else (if th.inCb then 1 else 0)
  }

  ghost function UnsettledIn(queues: seq<Queue>): Thread -> int {
    (th: Thread) => Unsettled(queues, th)
  }

  ghost function Rank(s: State): int {
    Work(s) * (|s.threads| + 1) + Sum(s.threads, UnsettledIn(s.queues))
  }

  /** What one submission may add to the rank. */
  function SubmitCost(s: State): nat { 16 * (|s.threads| + 1) }

  lemma RankNonNegative(s: State)
    ensures 0 <= Work(s) && 0 <= Rank(s)
  {
    forall v | v in s.queues
      ensures 0 <= QUEUE_COST(v)
    {
      SumNonNegative(v.tasks, TASK_COST);
    }
    SumNonNegative(s.queues, QUEUE_COST);
    SumNonNegative(s.threads, THREAD_COST);
    SumNonNegative(s.threads, UnsettledIn(s.queues));
  }

  // ---- How one step changes it ----

  /** The queue a step may change. */
  function Touched(s: State, a: Step): QueueId
    requires Enabled(s, a)
  {
    var th := s.threads[a.i];
    match a
    case Submit(_, q, _) => q
    case Post(_) => th.call.q
    case Write(_, _) => th.call.q
    case Credit(_) => th.call.q
    case _ => th.home
  }

  lemma OnlyTouched(s: State, a: Step)
    requires Enabled(s, a)
    ensures var q := Touched(s, a);
            q < |s.queues| && Next(s, a).queues == s.queues[q := NextQueue(s, a, q)]
  {
  }

  function QueueMove(s: State, a: Step): int
    requires Enabled(s, a)
  {
    var th, v := s.threads[a.i], s.queues[Touched(s, a)];
    match a
    case Submit(_, _, t) => TaskCost(t) + 1 - Request(v)
    case Post(_) => TaskCost(th.call.task) + 1 - Request(v)
    case Write(_, out) => Delivered(out)
    case Credit(_) => if s.cfg.policy.AsCoded? then 0 else th.call.short
    case Read(_, k) => -(k as int)
    case Dequeue(_) => if v.tasks == [] then 0 else -(TaskCost(v.tasks[0]) as int)
    case _ => 0
  }

  /** The cost of the queue a step touches, afterwards. */
  lemma QueueCostMove(s: State, a: Step)
    requires Enabled(s, a)
    ensures QueueCost(NextQueue(s, a, Touched(s, a))) - QueueCost(s.queues[Touched(s, a)]) == QueueMove(s, a)
  {
    var v := s.queues[Touched(s, a)];
    match a
    case Submit(_, _, t) => SumAppend(v.tasks, t, TASK_COST);
    case Post(_) => SumAppend(v.tasks, s.threads[a.i].call.task, TASK_COST);
    case Dequeue(_) => if v.tasks != [] { SumCons(v.tasks, TASK_COST); }
    case _ =>
  }

  /** Queue and thread together. */
  lemma LocalWork(s: State, a: Step)
    requires Enabled(s, a) && ThreadOk(s, s.threads[a.i])
    requires a.Dequeue? ==> s.queues[s.threads[a.i].home].tasks != []
    ensures var q := Touched(s, a);
            var d := QueueCost(NextQueue(s, a, q)) - QueueCost(s.queues[q])
                     + ThreadCost(NextThread(s, a)) - ThreadCost(s.threads[a.i]);
            if a.Submit? then d <= 15
            else if a.Wake? || a.Leave? then d == 0
            else d <= -1
  {
    QueueCostMove(s, a);
  }

  lemma WorkStep(s: State, a: Step)
    requires Enabled(s, a) && ThreadOk(s, s.threads[a.i])
    requires a.Dequeue? ==> s.queues[s.threads[a.i].home].tasks != []
    ensures Work(Next(s, a)) <= Work(s) + if a.Submit? then 15 else if a.Wake? || a.Leave? then 0 else -1
  {
    LocalWork(s, a);
    OnlyTouched(s, a);
    var q := Touched(s, a);
    SumUpdate(s.queues, q, NextQueue(s, a, q), QUEUE_COST);
    SumUpdate(s.threads, a.i, NextThread(s, a), THREAD_COST);
  }

  lemma UnsettledStep(s: State, a: Step)
    requires Enabled(s, a)
    ensures 0 <= Sum(s.threads, UnsettledIn(s.queues)) <= |s.threads|
    ensures 0 <= Sum(Next(s, a).threads, UnsettledIn(Next(s, a).queues)) <= |s.threads|
    ensures a.Wake? || a.Leave? ==>
              Sum(Next(s, a).threads, UnsettledIn(Next(s, a).queues)) < Sum(s.threads, UnsettledIn(s.queues))
  {
    SumAtMostLength(s.threads, UnsettledIn(s.queues));
    SumAtMostLength(Next(s, a).threads, UnsettledIn(Next(s, a).queues));
    if a.Wake? || a.Leave? {
      assert Next(s, a).queues == s.queues;
      SumUpdate(s.threads, a.i, NextThread(s, a), UnsettledIn(s.queues));
    }
  }

  /** Work w and unsettled threads u of at most n, before and after a step. */
  lemma RankArithmetic(w: int, u: nat, w': int, u': nat, d: int, n: nat)
    requires w' <= w + d && u <= n && u' <= n
    ensures d == 15 ==> w' * (n + 1) + u' < w * (n + 1) + u + 16 * (n + 1)
    ensures d == 0 && u' < u ==> w' * (n + 1) + u' < w * (n + 1) + u
    ensures d == -1 ==> w' * (n + 1) + u' < w * (n + 1) + u
  {
    assert (w + d - w') * (n + 1) >= 0;
    assert w' * (n + 1) <= w * (n + 1) + d * (n + 1);
  }

  /** Every step but a submission lowers the rank; a submission raises it by a bounded amount. */
  lemma RankStep(s: State, a: Step)
    requires Inv(s) && Enabled(s, a)
    ensures 0 <= Rank(Next(s, a))
    ensures if a.Submit? then Rank(Next(s, a)) < Rank(s) + SubmitCost(s)
            else Rank(Next(s, a)) < Rank(s)
  {
    assert ThreadOk(s, s.threads[a.i]);
    ByteImpliesTask(s, a.i);
    hide Inv, Enabled, Next, Work, Unsettled, UnsettledIn;
    var s' := Next(s, a);
    WorkStep(s, a);
    UnsettledStep(s, a);
    RankNonNegative(s');
    var d := if a.Submit? then 15 else if a.Wake? || a.Leave? then 0 else -1;
    RankArithmetic(Work(s), Sum(s.threads, UnsettledIn(s.queues)),
                   Work(s'), Sum(s'.threads, UnsettledIn(s'.queues)), d, |s.threads|);
  }

  // ---- Runs are finite ----

  ghost function Submits(run: seq<Step>): nat {
    if run == [] then 0 else (if run[0].Submit? then 1 else 0) + Submits(run[1..])
  }

  lemma SubmitsScale(first: bool, rest: nat, c: nat)
    ensures (rest + if first then 1 else 0) * c == rest * c + if first then c else 0
  {
  }

  /** Every run is bounded by what it submits: with finitely many submissions it must stop. */
  lemma {:induction false} RunsAreBounded(s: State, run: seq<Step>)
    requires Inv(s) && CanRun(s, run)
    ensures |run| + Rank(After(s, run)) <= Rank(s) + Submits(run) * SubmitCost(s)
    ensures 0 <= Rank(After(s, run))
    decreases |run|
  {
    hide Inv, Enabled, Next, Rank;
    RankNonNegative(s);
    if run != [] {
      var next := Next(s, run[0]);
      RankStep(s, run[0]);
      StepKeepsInv(s, run[0]);
      RunsAreBounded(next, run[1..]);
      SubmitsScale(run[0].Submit?, Submits(run[1..]), SubmitCost(s));
    }
  }

  // ---- Where they stop ----

  /** Nothing is enabled but new submissions and shutdowns. */
  ghost predicate Terminal(s: State) {
    forall a :: Enabled(s, a) ==> a.Submit? || a.Shutdown?
  }

  ghost predicate HasWorker(s: State, q: QueueId) {
    exists i :: 0 <= i < |s.threads| && s.threads[i].home == q && (s.threads[i].armed || s.threads[i].inCb)
  }

  lemma {:induction false} FreshObject(made: set<ObjectId>) returns (o: ObjectId)
    ensures forall x | x in made :: x < o
    decreases |made|
  {
    if made == {} {
      o := 0;
    } else {
      var m :| m in made;
      var below := FreshObject(made - {m});
      o := if m < below then below else m + 1;
      forall x | x in made
        ensures x < o
      {
        assert x == m || x in made - {m};
      }
    }
  }

  /** A thread that is in the middle of anything has a step. */
  lemma BusyThreadHasStep(s: State, i: ThreadId) returns (a: Step)
    requires Inv(s) && i < |s.threads|
    requires var th := s.threads[i]; !th.call.NoCall? || th.run.Some? || 0 < th.credits
    ensures Enabled(s, a) && !a.Submit? && !a.Shutdown? && a.i == i
  {
    var th := s.threads[i];
    assert ThreadOk(s, th);
    match th.call
    case Posting(_, _) => a := Post(i);
    case Crediting(_, _) => a := Credit(i);
    case Notifying(q, left, _) =>
      assert QueueInv(s, q);
      a := Write(i, if s.queues[q].pipe + left <= s.queues[q].capacity then Wrote(left) else Again);
    case NoCall =>
      if th.run.Some? {
        var o := FreshObject(s.made);
        a := Return(i, Returned(0), o);
      } else {
        a := Dequeue(i);
      }
  }

  /** A readable pipe with a worker on it, none of whose bytes are unspent, has a step. */
  lemma ReadablePipeHasStep(s: State, i: ThreadId) returns (a: Step)
    requires Inv(s) && i < |s.threads| && (s.threads[i].armed || s.threads[i].inCb)
    requires 0 < s.queues[s.threads[i].home].pipe
    ensures Enabled(s, a) && !a.Submit? && !a.Shutdown? && a.i == i
  {
    var th := s.threads[i];
    assert ThreadOk(s, th);
    if !th.call.NoCall? || th.run.Some? || 0 < th.credits {
      a := BusyThreadHasStep(s, i);
    } else if th.inCb {
      a := Read(i, 1);
    } else {
      a := Wake(i);
    }
  }

  /** From every state the system can run on, without new submissions, until it stops. */
  lemma Settles(s: State) returns (run: seq<Step>)
    requires Inv(s)
    ensures CanRun(s, run) && Submits(run) == 0 && Terminal(After(s, run))
    ensures forall a | a in run :: !a.Shutdown?
    decreases Rank(s)
  {
    RankNonNegative(s);
    run := [];
    if a :| Enabled(s, a) && !a.Submit? && !a.Shutdown? {
      StepKeepsInv(s, a);
      RankStep(s, a);
      var rest := Settles(Next(s, a));
      run := [a] + rest;
      assert run[1..] == rest;
    }
  }

  ghost predicate AllQuiet(s: State) {
    forall th | th in s.threads :: th.call.NoCall? && th.run.None? && th.credits == 0
  }

  lemma TerminalIsQuiet(s: State)
    requires Inv(s) && Terminal(s)
    ensures AllQuiet(s)
  {
    forall i | 0 <= i < |s.threads|
      ensures var th := s.threads[i]; th.call.NoCall? && th.run.None? && th.credits == 0
    {
      var th := s.threads[i];
      if !th.call.NoCall? || th.run.Some? || 0 < th.credits {
        var a := BusyThreadHasStep(s, i);
        assert false;
      }
    }
  }

  /** No lost wake-up. When only submissions and shutdowns are left to happen, a queue with a
      worker has an empty pipe, and what is still in it are exactly the notifications given up
      (as coded) or outstanding (as intended). Without any given up, everything enqueued was
      dequeued, in order. */
  lemma NoLostWakeup(s: State, q: QueueId)
    requires Inv(s) && Terminal(s) && q < |s.queues| && HasWorker(s, q)
    ensures s.queues[q].pipe == 0
    ensures |s.queues[q].tasks| == if s.cfg.policy.AsCoded? then GivenUp(s, q) else s.queues[q].numOutstanding
    ensures s.cfg.policy.AsCoded? && GivenUp(s, q) == 0 ==>
              s.queues[q].tasks == [] && EnqHistory(s, q) == DeqHistory(s, q)
  {
    var i :| 0 <= i < |s.threads| && s.threads[i].home == q && (s.threads[i].armed || s.threads[i].inCb);
    if 0 < s.queues[q].pipe {
      var a := ReadablePipeHasStep(s, i);
      assert false;
    }
    TerminalIsQuiet(s);
    assert QueueInv(s, q);
    SumZero(s.threads, HeldFor(q));
  }

  /** While a task waits in a queue with a worker, and nothing was given up there, a worker of
      that queue or a thread holding bytes for it has a step. */
  lemma WaitingTaskHasStep(s: State, q: QueueId) returns (a: Step)
    requires Inv(s) && s.cfg.policy.AsCoded? && q < |s.queues| && HasWorker(s, q)
    requires s.queues[q].tasks != [] && GivenUp(s, q) == 0
    ensures Enabled(s, a) && !a.Submit? && !a.Shutdown?
    ensures s.threads[a.i].home == q || 0 < Held(s.threads[a.i], q)
  {
    assert QueueInv(s, q);
    if 0 < s.queues[q].pipe {
      var i :| 0 <= i < |s.threads| && s.threads[i].home == q && (s.threads[i].armed || s.threads[i].inCb);
      a := ReadablePipeHasStep(s, i);
    } else {
      var i := SumPositive(s.threads, HeldFor(q));
      a := BusyThreadHasStep(s, i);
    }
  }
}
