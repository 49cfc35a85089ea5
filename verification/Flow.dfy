/** Every task object made is in exactly one place: waiting, running, about to be posted, or
    finished. Stated once, for arbitrary weights, and used for counting whatever is wanted. */
module Flow {
  import opened Sums
  import opened Tasks
  import opened Protocol
  import opened Accounting

  /** A weight may look at a task and at the queue it is destined for. */
  type Weight = (QueueId, Task) -> int

  // ---- Four totals over the log, two over the threads ----

  ghost function BornW(w: Weight): Event -> int {
    (e: Event) =>
      if e.Enqueued? && e.submitted then w(e.q, e.task)
      else if e.Finished? && e.reply.Some? then w(e.task.resp, e.reply.value)
      else 0
  }

  ghost function EnqW(w: Weight): Event -> int {
    (e: Event) => if e.Enqueued? then w(e.q, e.task) else 0
  }

  ghost function DeqW(w: Weight): Event -> int {
    (e: Event) => if e.Dequeued? then w(e.q, e.task) else 0
  }

  ghost function DoneW(w: Weight): Event -> int {
    (e: Event) => if e.Finished? then w(e.q, e.task) else 0
  }

  ghost function PostingW(w: Weight): Thread -> int {
    (th: Thread) => if th.call.Posting? then w(th.call.q, th.call.task) else 0
  }

  ghost function RunningW(w: Weight): Thread -> int {
    (th: Thread) => if th.run.Some? then w(th.home, th.run.value) else 0
  }

  /** What was submitted or made as a response has been enqueued or is about to be. */
  ghost predicate BirthFlow(s: State, w: Weight) {
    Sum(s.log, BornW(w)) == Sum(s.log, EnqW(w)) + Sum(s.threads, PostingW(w))
  }

  /** What was dequeued is running or has finished. */
  ghost predicate RunFlow(s: State, w: Weight) {
    Sum(s.log, DeqW(w)) == Sum(s.threads, RunningW(w)) + Sum(s.log, DoneW(w))
  }

  lemma InitFlow(s: State, w: Weight)
    requires Init(s)
    ensures BirthFlow(s, w) && RunFlow(s, w)
  {
    SumZero(s.threads, PostingW(w));
    SumZero(s.threads, RunningW(w));
  }

  lemma BirthFlowKeeps(s: State, a: Step, w: Weight)
    requires Enabled(s, a) && BirthFlow(s, w)
    ensures BirthFlow(Next(s, a), w)
  {
    var e := NextEvent(s, a);
    SumConcat(s.log, e, BornW(w));
    SumConcat(s.log, e, EnqW(w));
    SumOne(e, BornW(w));
    SumOne(e, EnqW(w));
    SumUpdate(s.threads, a.i, NextThread(s, a), PostingW(w));
  }

  lemma RunFlowKeeps(s: State, a: Step, w: Weight)
    requires Enabled(s, a) && RunFlow(s, w)
    ensures RunFlow(Next(s, a), w)
  {
    var e := NextEvent(s, a);
    SumConcat(s.log, e, DeqW(w));
    SumConcat(s.log, e, DoneW(w));
    SumOne(e, DeqW(w));
    SumOne(e, DoneW(w));
    SumUpdate(s.threads, a.i, NextThread(s, a), RunningW(w));
  }

  lemma {:induction false} RunKeepsFlow(s: State, run: seq<Step>, w: Weight)
    requires CanRun(s, run) && BirthFlow(s, w) && RunFlow(s, w)
    ensures BirthFlow(After(s, run), w) && RunFlow(After(s, run), w)
    decreases |run|
  {
    if run != [] {
      BirthFlowKeeps(s, run[0], w);
      RunFlowKeeps(s, run[0], w);
      RunKeepsFlow(Next(s, run[0]), run[1..], w);
    }
  }

  // ---- One queue at a time ----

  /** Weigh only what is destined for q. */
  ghost function At(q: QueueId, v: Task -> int): Weight {
    (r: QueueId, t: Task) => if r == q then v(t) else 0
  }

  lemma {:induction false} EnqHistoryWeight(log: seq<Event>, q: QueueId, v: Task -> int)
    ensures Sum(Flat(log, EnqOf(q)), v) == Sum(log, EnqW(At(q, v)))
  {
    if log != [] {
      var front, e := log[..|log| - 1], log[|log| - 1];
      EnqHistoryWeight(front, q, v);
      SumConcat(Flat(front, EnqOf(q)), EnqOf(q)(e), v);
      SumOne(EnqOf(q)(e), v);
    }
  }

  lemma {:induction false} DeqHistoryWeight(log: seq<Event>, q: QueueId, v: Task -> int)
    ensures Sum(Flat(log, DeqOf(q)), v) == Sum(log, DeqW(At(q, v)))
  {
    if log != [] {
      var front, e := log[..|log| - 1], log[|log| - 1];
      DeqHistoryWeight(front, q, v);
      SumConcat(Flat(front, DeqOf(q)), DeqOf(q)(e), v);
      SumOne(DeqOf(q)(e), v);
    }
  }

  /** What was enqueued on q has been dequeued from q or is waiting there. */
  lemma QueueFlow(s: State, q: QueueId, v: Task -> int)
    requires q < |s.queues| && Fifo(s, q)
    ensures Sum(s.log, EnqW(At(q, v))) == Sum(s.log, DeqW(At(q, v))) + Sum(s.queues[q].tasks, v)
  {
    EnqHistoryWeight(s.log, q, v);
    DeqHistoryWeight(s.log, q, v);
    SumConcat(DeqHistory(s, q), s.queues[q].tasks, v);
  }

  /** Made for q: finished at q, running there, waiting there, or about to be posted there. */
  lemma QueueConservation(s: State, q: QueueId, v: Task -> int)
    requires q < |s.queues| && Fifo(s, q)
    requires BirthFlow(s, At(q, v)) && RunFlow(s, At(q, v))
    ensures Sum(s.log, BornW(At(q, v))) ==
              Sum(s.log, DoneW(At(q, v))) + Sum(s.threads, RunningW(At(q, v)))
              + Sum(s.queues[q].tasks, v) + Sum(s.threads, PostingW(At(q, v)))
  {
    QueueFlow(s, q, v);
  }

  /** Over every run of any callers, for any weight: what was made for q has finished there, is
      running there, waits there, or is about to be posted there. */
  lemma Conservation(s: State, run: seq<Step>, q: QueueId, v: Task -> int)
    requires Init(s) && CanRun(s, run) && q < |s.queues|
    ensures var end := After(s, run);
            Sum(end.log, BornW(At(q, v))) ==
              Sum(end.log, DoneW(At(q, v))) + Sum(end.threads, RunningW(At(q, v)))
              + Sum(end.queues[q].tasks, v) + Sum(end.threads, PostingW(At(q, v)))
  {
    InitInv(s);
    InitFlow(s, At(q, v));
    RunKeepsInv(s, run);
    RunKeepsFlow(s, run, At(q, v));
    assert QueueInv(After(s, run), q);
    QueueConservation(After(s, run), q, v);
  }
}
