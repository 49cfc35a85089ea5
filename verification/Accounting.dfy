/** What every step keeps: the token accounting that lets taskq_cb spend exactly one task per
    byte, the FIFO order of each queue, and its counters. */
module Accounting {
  import opened Sums
  import opened Tasks
  import opened Protocol

  // ---- Tokens: notification bytes reserved, in flight, or read and not yet spent ----

  /** The bytes for queue q that one thread is still to send, to credit back, or to spend. */
  function Held(th: Thread, q: QueueId): nat {
    (if th.home == q then th.credits else 0) + InFlight(th, q)
  }

  function InFlight(th: Thread, q: QueueId): nat {
    match th.call
    case Notifying(r, left, _) => if r == q then left else 0
    case Crediting(r, short) => if r == q then short else 0
    case _ => 0
  }

  ghost function HeldFor(q: QueueId): Thread -> int {
    (th: Thread) => Held(th, q)
  }

  ghost function InFlightFor(q: QueueId): Thread -> int {
    (th: Thread) => InFlight(th, q)
  }

  ghost function CreditsFor(q: QueueId): Thread -> int {
    (th: Thread) => if th.home == q then th.credits else 0
  }

  /** Tasks in a queue beyond the tokens the queue itself accounts for. */
  function Uncovered(v: Queue): int {
    |v.tasks| - v.pipe - v.numOutstanding - (v.maxOutstanding - INITIAL_MAX)
  }

  /** Tasks waiting in q, one by one: bytes held by threads, bytes in the pipe, outstanding
      notifications, and growth of the limit. */
  ghost predicate Tokens(s: State, q: QueueId)
    requires q < |s.queues|
  {
    Uncovered(s.queues[q]) == Sum(s.threads, HeldFor(q))
  }

  // ---- Histories read off the log ----

  ghost function EnqOf(q: QueueId): Event -> seq<Task> {
    (e: Event) => if e.Enqueued? && e.q == q then [e.task] else []
  }

  ghost function DeqOf(q: QueueId): Event -> seq<Task> {
    (e: Event) => if e.Dequeued? && e.q == q then [e.task] else []
  }

  ghost function GivenUpOf(q: QueueId): Event -> int {
    (e: Event) => if e.GaveUp? && e.q == q then e.k else 0
  }

  ghost function SentOf(q: QueueId): Event -> int {
    (e: Event) => if e.Sent? && e.q == q then e.k else 0
  }

  ghost function EnqHistory(s: State, q: QueueId): seq<Task> { Flat(s.log, EnqOf(q)) }

  ghost function DeqHistory(s: State, q: QueueId): seq<Task> { Flat(s.log, DeqOf(q)) }

  ghost function GivenUp(s: State, q: QueueId): int { Sum(s.log, GivenUpOf(q)) }

  ghost function BytesSent(s: State, q: QueueId): int { Sum(s.log, SentOf(q)) }

  // ---- The invariant ----

  predicate ThreadOk(s: State, th: Thread) {
    && th.home < |s.queues|
    && (!th.inCb ==> th.credits == 0 && th.run.None?)
    && (th.run.Some? ==> th.run.value.obj in s.execQ && TaskOk(s, th.run.value))
    && (match th.call
        case NoCall => true
        case Posting(q, t) => q < |s.queues| && !t.Hooked() && th.run.None?
        case Notifying(q, left, retries) => q < |s.queues| && RequestOk(s, left) && 0 < retries <= RETRIES
        case Crediting(q, short) => q < |s.queues| && RequestOk(s, short))
  }

  /** The bytes a call is still concerned with fit the notification buffer; as coded there is
      never more than one. */
  predicate RequestOk(s: State, n: nat) {
    0 < n <= INITIAL_MAX && (s.cfg.policy.AsCoded? ==> n == 1)
  }

  /** In the two policies the shortfalls end up in different counters. */
  ghost predicate CountersOk(s: State, q: QueueId)
    requires q < |s.queues|
  {
    var v := s.queues[q];
    && v.pipe <= v.capacity
    && v.numEnqueue == |EnqHistory(s, q)|
    && v.numDequeue == |DeqHistory(s, q)|
    && match s.cfg.policy
       case AsCoded =>
         v.numOutstanding == 0 && v.maxOutstanding == INITIAL_MAX + GivenUp(s, q) && 0 <= GivenUp(s, q)
       case Intended => v.maxOutstanding == INITIAL_MAX
  }

  ghost predicate Fifo(s: State, q: QueueId)
    requires q < |s.queues|
  {
    EnqHistory(s, q) == DeqHistory(s, q) + s.queues[q].tasks
  }

  ghost predicate QueueInv(s: State, q: QueueId)
    requires q < |s.queues|
  {
    && Tokens(s, q) && CountersOk(s, q) && Fifo(s, q)
    && forall t | t in s.queues[q].tasks :: TaskOk(s, t)
  }

  ghost predicate Inv(s: State) {
    && !s.nullDeref
    && (forall i | 0 <= i < |s.threads| :: ThreadOk(s, s.threads[i]))
    && (forall q | 0 <= q < |s.queues| :: QueueInv(s, q))
  }

  // ---- Every step keeps it ----

  lemma InitInv(s: State)
    requires Init(s)
    ensures Inv(s)
  {
    forall q | 0 <= q < |s.queues|
      ensures QueueInv(s, q)
    {
      forall th | th in s.threads
        ensures HeldFor(q)(th) == 0
      {
      }
      SumZero(s.threads, HeldFor(q));
    }
  }

  /** A worker holding a byte has a task waiting for it: the byte it spends is its own. */
  lemma ByteImpliesTask(s: State, i: ThreadId)
    requires Inv(s) && i < |s.threads|
    ensures s.threads[i].credits <= |s.queues[s.threads[i].home].tasks|
  {
    var q := s.threads[i].home;
    assert ThreadOk(s, s.threads[i]) && QueueInv(s, q);
    SumAtLeast(s.threads, i, HeldFor(q));
  }

  /** Reserving bytes for one more task asks for at least one byte and never more than fit the
      buffer; as coded, for exactly one. */
  lemma RequestFits(s: State, q: QueueId)
    requires q < |s.queues| && CountersOk(s, q)
    ensures RequestOk(s, Request(s.queues[q]))
  {
  }

  lemma OtherThreadKeeps(s: State, a: Step, th: Thread)
    requires Enabled(s, a) && ThreadOk(s, th)
    ensures ThreadOk(Next(s, a), th)
  {
  }

  lemma OwnThreadKeeps(s: State, a: Step)
    requires Inv(s) && Enabled(s, a)
    ensures ThreadOk(Next(s, a), NextThread(s, a))
  {
    var th := s.threads[a.i];
    assert ThreadOk(s, th);
    match a
    case Submit(_, q, _) =>
      assert QueueInv(s, q);
      RequestFits(s, q);
    case Post(_) =>
      assert QueueInv(s, th.call.q);
      RequestFits(s, th.call.q);
    case Dequeue(_) =>
      ByteImpliesTask(s, a.i);
      var v := s.queues[th.home];
      assert QueueInv(s, th.home) && v.tasks[0] in v.tasks;
    case _ =>
  }

  /** The log grows by what the step adds to it, and so does each history. */
  lemma HistoriesStep(s: State, a: Step, q: QueueId)
    requires Enabled(s, a)
    ensures var s' := Next(s, a);
            && EnqHistory(s', q) == EnqHistory(s, q) + Flat(NextEvent(s, a), EnqOf(q))
            && DeqHistory(s', q) == DeqHistory(s, q) + Flat(NextEvent(s, a), DeqOf(q))
            && GivenUp(s', q) == GivenUp(s, q) + Sum(NextEvent(s, a), GivenUpOf(q))
            && BytesSent(s', q) == BytesSent(s, q) + Sum(NextEvent(s, a), SentOf(q))
  {
    hide NextEvent, NextThread, NextQueue, Flat, Sum;
    var e := NextEvent(s, a);
    FlatConcat(s.log, e, EnqOf(q));
    FlatConcat(s.log, e, DeqOf(q));
    SumConcat(s.log, e, GivenUpOf(q));
    SumConcat(s.log, e, SentOf(q));
  }

  /** A step moves tokens between a queue and the one thread that takes it. */
  lemma TokenMove(s: State, a: Step, q: QueueId)
    requires Enabled(s, a) && q < |s.queues| && ThreadOk(s, s.threads[a.i])
    requires a.Dequeue? ==> s.queues[s.threads[a.i].home].tasks != []
    ensures Uncovered(NextQueue(s, a, q)) - Uncovered(s.queues[q])
         == Held(NextThread(s, a), q) - Held(s.threads[a.i], q)
  {
  }

  lemma TokensKeep(s: State, a: Step, q: QueueId)
    requires Enabled(s, a) && q < |s.queues| && ThreadOk(s, s.threads[a.i]) && Tokens(s, q)
    requires a.Dequeue? ==> s.queues[s.threads[a.i].home].tasks != []
    ensures Tokens(Next(s, a), q)
  {
    TokenMove(s, a, q);
    hide Uncovered, Held, NextThread, NextQueue, Sum;
    SumUpdate(s.threads, a.i, NextThread(s, a), HeldFor(q));
  }

  /** The task step a appends to the deque of q, if it does. */
  function Added(s: State, a: Step, q: QueueId): seq<Task>
    requires Enabled(s, a)
  {
    var call := s.threads[a.i].call;
    if a.Submit? && a.q == q then [a.task]
    else if a.Post? && call.q == q then [call.task]
    else []
  }

  /** The task step a takes from the deque of q, if it does. */
  function Gone(s: State, a: Step, q: QueueId): seq<Task>
    requires Enabled(s, a)
  {
    if a.Dequeue? && s.threads[a.i].home == q then s.queues[q].tasks[..if s.queues[q].tasks == [] then 0 else 1] else []
  }

  lemma LoggedAdded(s: State, a: Step, q: QueueId)
    requires Enabled(s, a)
    ensures Flat(NextEvent(s, a), EnqOf(q)) == Added(s, a, q)
  {
    FlatOne(NextEvent(s, a), EnqOf(q));
  }

  lemma LoggedGone(s: State, a: Step, q: QueueId)
    requires Enabled(s, a)
    ensures Flat(NextEvent(s, a), DeqOf(q)) == Gone(s, a, q)
  {
    FlatOne(NextEvent(s, a), DeqOf(q));
  }

  /** A step appends to the back of a deque what it logs as enqueued, and takes from the front
      what it logs as dequeued. */
  lemma FifoMove(s: State, a: Step, q: QueueId)
    requires Enabled(s, a) && q < |s.queues|
    ensures s.queues[q].tasks + Flat(NextEvent(s, a), EnqOf(q))
         == Flat(NextEvent(s, a), DeqOf(q)) + NextQueue(s, a, q).tasks
  {
    LoggedAdded(s, a, q);
    LoggedGone(s, a, q);
    hide NextEvent, Flat;
    var v, v' := s.queues[q], NextQueue(s, a, q);
    match a
    case Submit(_, _, _) => assert v'.tasks == v.tasks + Added(s, a, q);
    case Post(_) => assert v'.tasks == v.tasks + Added(s, a, q);
    case Dequeue(_) => assert v.tasks == Gone(s, a, q) + v'.tasks;
    case _ => assert v'.tasks == v.tasks;
  }

  lemma CountersMove(s: State, a: Step, q: QueueId)
    requires Enabled(s, a) && q < |s.queues|
    ensures var v, v' := s.queues[q], NextQueue(s, a, q);
            && v'.numEnqueue == v.numEnqueue + |Flat(NextEvent(s, a), EnqOf(q))|
            && v'.numDequeue == v.numDequeue + |Flat(NextEvent(s, a), DeqOf(q))|
  {
    LoggedAdded(s, a, q);
    LoggedGone(s, a, q);
    hide NextEvent, Flat;
  }

  lemma LimitMove(s: State, a: Step, q: QueueId)
    requires Enabled(s, a) && q < |s.queues|
    ensures var v, v' := s.queues[q], NextQueue(s, a, q);
            && 0 <= Sum(NextEvent(s, a), GivenUpOf(q))
            && (v.pipe <= v.capacity ==> v'.pipe <= v'.capacity)
            && match s.cfg.policy
               case AsCoded =>
                 && v'.maxOutstanding == v.maxOutstanding + Sum(NextEvent(s, a), GivenUpOf(q))
                 && (v.numOutstanding == 0 && INITIAL_MAX <= v.maxOutstanding ==> v'.numOutstanding == 0)
               case Intended =>
                 v'.maxOutstanding == v.maxOutstanding
  {
    SumOne(NextEvent(s, a), GivenUpOf(q));
  }

  lemma FifoKeep(s: State, a: Step, q: QueueId)
    requires Enabled(s, a) && q < |s.queues| && Fifo(s, q)
    ensures Fifo(Next(s, a), q)
  {
    HistoriesStep(s, a, q);
    FifoMove(s, a, q);
    hide Flat, NextEvent, Enabled;
    ShiftQueue(DeqHistory(s, q), s.queues[q].tasks, Flat(NextEvent(s, a), EnqOf(q)),
               Flat(NextEvent(s, a), DeqOf(q)), NextQueue(s, a, q).tasks);
  }

  lemma ShiftQueue<T>(past: seq<T>, now: seq<T>, added: seq<T>, taken: seq<T>, later: seq<T>)
    requires now + added == taken + later
    ensures past + now + added == past + taken + later
  {
    assert past + now + added == past + (now + added);
  }

  lemma CountersKeep(s: State, a: Step, q: QueueId)
    requires Enabled(s, a) && q < |s.queues| && CountersOk(s, q)
    ensures CountersOk(Next(s, a), q)
  {
    HistoriesStep(s, a, q);
    CountersMove(s, a, q);
    LimitMove(s, a, q);
    hide Flat, Sum, NextEvent;
  }

  lemma TasksKeep(s: State, a: Step, q: QueueId)
    requires Inv(s) && Enabled(s, a) && q < |s.queues|
    ensures forall t | t in Next(s, a).queues[q].tasks :: TaskOk(Next(s, a), t)
  {
    assert QueueInv(s, q) && ThreadOk(s, s.threads[a.i]);
    forall t | t in NextQueue(s, a, q).tasks
      ensures TaskOk(s, t)
    {
      assert t in s.queues[q].tasks
             || (a.Submit? && t == a.task)
             || (a.Post? && t == s.threads[a.i].call.task);
    }
  }

  lemma StepKeepsInv(s: State, a: Step)
    requires Inv(s) && Enabled(s, a)
    ensures Inv(Next(s, a))
  {
    ByteImpliesTask(s, a.i);
    assert ThreadOk(s, s.threads[a.i]);
    OwnThreadKeeps(s, a);
    forall i | 0 <= i < |s.threads| && i != a.i
      ensures ThreadOk(Next(s, a), s.threads[i])
    {
      OtherThreadKeeps(s, a, s.threads[i]);
    }
    forall q | 0 <= q < |s.queues|
      ensures QueueInv(Next(s, a), q)
    {
      assert QueueInv(s, q);
      TokensKeep(s, a, q);
      CountersKeep(s, a, q);
      FifoKeep(s, a, q);
      TasksKeep(s, a, q);
    }
  }

  lemma {:induction false} RunKeepsInv(s: State, run: seq<Step>)
    requires Inv(s) && CanRun(s, run)
    ensures Inv(After(s, run))
    decreases |run|
  {
    if run != [] {
      StepKeepsInv(s, run[0]);
      RunKeepsInv(Next(s, run[0]), run[1..]);
    }
  }

  /** In every reachable state of any number of producers and workers: the deque is the FIFO of
      what was enqueued and not dequeued, its length is the sum of the tokens wherever they are,
      and no null task has been used. */
  lemma ReachableIsAccounted(s: State, run: seq<Step>, q: QueueId)
    requires Init(s) && CanRun(s, run) && q < |s.queues|
    ensures var end := After(s, run);
            var v := end.queues[q];
            && !end.nullDeref
            && EnqHistory(end, q) == DeqHistory(end, q) + v.tasks
            && v.numEnqueue - v.numDequeue == |v.tasks|
            && |v.tasks| == Sum(end.threads, InFlightFor(q)) + v.pipe + Sum(end.threads, CreditsFor(q))
                            + v.numOutstanding + (v.maxOutstanding - INITIAL_MAX)
  {
    InitInv(s);
    RunKeepsInv(s, run);
    var end := After(s, run);
    assert QueueInv(end, q);
    SumSplit(end.threads, InFlightFor(q), CreditsFor(q), HeldFor(q));
  }

  /** A worker at the top of its loop may read any bytes there are, but never more than the 4096 its
      buffer holds. */
  lemma ReadIff(s: State, i: ThreadId, k: nat)
    requires Inv(s) && i < |s.threads| && Polling(s.threads[i])
    ensures Enabled(s, Read(i, k)) <==> 1 <= k <= 4096 && k <= s.queues[s.threads[i].home].pipe
  {
    assert ThreadOk(s, s.threads[i]);
  }

  /** In every reachable state, whichever worker comes to dequeue finds a task. */
  lemma DequeueFindsTask(s: State, run: seq<Step>, i: ThreadId)
    requires Init(s) && CanRun(s, run) && Enabled(After(s, run), Dequeue(i))
    ensures After(s, run).queues[After(s, run).threads[i].home].tasks != []
  {
    InitInv(s);
    RunKeepsInv(s, run);
    ByteImpliesTask(After(s, run), i);
  }

  /** Some step of a run dequeues from an empty queue. */
  ghost predicate SomeEmptyDequeue(s: State, run: seq<Step>)
    requires CanRun(s, run)
    decreases |run|
  {
    run != [] &&
    ((run[0].Dequeue? && s.queues[s.threads[run[0].i].home].tasks == []) || SomeEmptyDequeue(Next(s, run[0]), run[1..]))
  }

  /** What the flag means, from any state: a null task has been used exactly if a dequeue found its
      queue empty. */
  lemma {:induction false} NullUsedIff(s: State, run: seq<Step>)
    requires CanRun(s, run)
    ensures After(s, run).nullDeref <==> s.nullDeref || SomeEmptyDequeue(s, run)
    decreases |run|
  {
    if run != [] {
      NullUsedIff(Next(s, run[0]), run[1..]);
    }
  }
}
