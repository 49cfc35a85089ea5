/** The notification protocol as a transition system: any number of queues, each a
    mutex-protected deque paired with a non-blocking pipe, and any number of threads. One step
    is one critical section, one system call, or one boundary of user code. */
module Protocol {
  import opened Tasks

  const INITIAL_MAX: nat := 4096
  const READ_SIZE: nat := 4096
  const RETRIES: nat := 3

  type ThreadId = nat

  /** AsCoded adds a shortfall to max_outstanding_notifn_; Intended is what the comment above
      that line says: add it back to num_outstanding_notifn_. */
  datatype Policy = AsCoded | Intended

  /** `reliable` restricts runs to those in which a write that fits the pipe succeeds in full.
      Writes of at most `pipeBuf` bytes are atomic; longer ones may be partial. POSIX asks for at
      least 512, Linux has 4096. */
  datatype Config = Config(policy: Policy, reliable: bool, pipeBuf: nat)

  datatype Queue = Queue(
    tasks: seq<Task>,
    numEnqueue: nat,
    numDequeue: nat,
    maxOutstanding: nat,
    numOutstanding: nat,
    pipe: nat,
    capacity: nat)

  /** Where a thread is inside EnqueueGTask, or about to enter it with a response. */
  datatype Call =
    | NoCall
    | Posting(q: QueueId, task: Task)
    | Notifying(q: QueueId, left: nat, retries: nat)
    | Crediting(q: QueueId, short: nat)

  /** A thread with a read event (`armed`) on the pipe of its `home` queue is a worker. It is
      inside taskq_cb when `inCb`, holds `credits` bytes it has read and not yet spent, and is
      in user code when `run` is some task. A thread never armed is a plain producer. */
  datatype Thread = Thread(
    home: QueueId,
    armed: bool,
    inCb: bool,
    credits: nat,
    run: Option<Task>,
    call: Call)

  datatype WriteOutcome = Wrote(k: nat) | Again | Interrupted | Failed(errno: int)

  datatype Event =
    | Enqueued(q: QueueId, task: Task, submitted: bool)
    | Dequeued(q: QueueId, task: Task)
    | Finished(q: QueueId, task: Task, outcome: Outcome, reply: Option<Task>)
    | Sent(q: QueueId, k: nat)
    | GaveUp(q: QueueId, k: nat)

  /** `execQ` is the exec_task_q_ field of every task object that has it set; `made` are the
      objects enqueued or allocated as responses so far. `nullDeref` and `setTwice` record the
      two things the code must never do: use a null dequeued task, and fail the set-once
      assertion. */
  datatype State = State(
    cfg: Config,
    queues: seq<Queue>,
    threads: seq<Thread>,
    execQ: map<ObjectId, QueueId>,
    made: set<ObjectId>,
    nullDeref: bool,
    setTwice: bool,
    log: seq<Event>)

  datatype Step =
    | Submit(i: ThreadId, q: QueueId, task: Task)
    | Post(i: ThreadId)
    | Write(i: ThreadId, out: WriteOutcome)
    | Credit(i: ThreadId)
    | Wake(i: ThreadId)
    | Read(i: ThreadId, k: nat)
    | Leave(i: ThreadId)
    | Dequeue(i: ThreadId)
    | Return(i: ThreadId, outcome: Outcome, obj: ObjectId)
    | Shutdown(i: ThreadId)

  // ---- Queue operations, each the effect of one critical section or system call ----

  /** num_notifn_to_write(1): the bytes one more task asks for. */
  function Request(q: Queue): nat {
    if q.numOutstanding + 1 > q.maxOutstanding then q.maxOutstanding else q.numOutstanding + 1
  }

  function Push(q: Queue, t: Task): Queue {
    q.(tasks := q.tasks + [t],
       numEnqueue := q.numEnqueue + 1,
       numOutstanding := q.numOutstanding + 1 - Request(q))
  }

  function Pop(q: Queue): Queue
    requires q.tasks != []
  {
    q.(tasks := q.tasks[1..], numDequeue := q.numDequeue + 1)
  }

  function CreditBack(policy: Policy, q: Queue, short: nat): Queue {
    match policy
    case AsCoded => q.(maxOutstanding := q.maxOutstanding + short)
    case Intended => q.(numOutstanding := q.numOutstanding + short)
  }

  function Delivered(out: WriteOutcome): nat {
    if out.Wrote? then out.k else 0
  }

  /** The outcomes a write of n bytes may have. */
  predicate Legal(cfg: Config, q: Queue, n: nat, out: WriteOutcome) {
    && Delivered(out) <= n
    && q.pipe + Delivered(out) <= q.capacity
    && (n <= cfg.pipeBuf ==> Delivered(out) == 0 || Delivered(out) == n)
    && (cfg.reliable && q.pipe + n <= q.capacity ==> out == Wrote(n))
  }

  /** The caller of NotifyQ with `left` bytes to send and `retries` attempts to go. */
  function Attempts(q: QueueId, left: nat, retries: nat): Call {
    if left == 0 then NoCall
    else if retries == 0 then Crediting(q, left)
    else Notifying(q, left, retries)
  }

  function AfterWrite(q: QueueId, left: nat, retries: nat, out: WriteOutcome): Call
    requires Delivered(out) <= left && 0 < retries
  {
    if out.Failed? then Attempts(q, left, 0)
    else Attempts(q, left - Delivered(out), retries - 1)
  }

  // ---- Steps ----

  predicate TaskOk(s: State, t: Task) {
    t.Hooked() ==> t.resp < |s.queues|
  }

  predicate Enabled(s: State, a: Step) {
    && a.i < |s.threads|
    && var th := s.threads[a.i];
    && th.home < |s.queues|
    && match a
       case Submit(_, q, t) =>
         th.call.NoCall? && (th.inCb ==> th.run.Some?) && q < |s.queues| && TaskOk(s, t)
       case Post(_) =>
         th.call.Posting? && th.call.q < |s.queues|
       case Write(_, out) =>
         && th.call.Notifying? && th.call.q < |s.queues| && 0 < th.call.retries
         && Legal(s.cfg, s.queues[th.call.q], th.call.left, out)
       case Credit(_) =>
         th.call.Crediting? && th.call.q < |s.queues|
       case Wake(_) =>
         th.call.NoCall? && th.armed && !th.inCb && 0 < s.queues[th.home].pipe
       case Read(_, k) =>
         && Polling(th) && 0 < k <= READ_SIZE && k <= s.queues[th.home].pipe
       case Leave(_) =>
         Polling(th) && s.queues[th.home].pipe == 0
       case Dequeue(_) =>
         Draining(th)
       case Return(_, _, obj) =>
         th.run.Some? && th.call.NoCall? && th.run.value.obj in s.execQ && obj !in s.made
       case Shutdown(_) =>
         th.armed
  }

  /** At the top of taskq_cb's outer loop. */
  predicate Polling(th: Thread) {
    th.inCb && th.call.NoCall? && th.run.None? && th.credits == 0
  }

  /** Inside it, with a byte in hand and nothing running. */
  predicate Draining(th: Thread) {
    th.inCb && th.call.NoCall? && th.run.None? && 0 < th.credits
  }

  /** The thread that takes step a, afterwards. */
  function NextThread(s: State, a: Step): Thread
    requires Enabled(s, a)
  {
    var th := s.threads[a.i];
    match a
    case Submit(_, q, _) => th.(call := Attempts(q, Request(s.queues[q]), RETRIES))
    case Post(_) => th.(call := Attempts(th.call.q, Request(s.queues[th.call.q]), RETRIES))
    case Write(_, out) => th.(call := AfterWrite(th.call.q, th.call.left, th.call.retries, out))
    case Credit(_) => th.(call := NoCall)
    case Wake(_) => th.(inCb := true)
    case Read(_, k) => th.(credits := k)
    case Leave(_) => th.(inCb := false)
    case Dequeue(_) =>
      var q := s.queues[th.home];
      th.(credits := th.credits - 1, run := if q.tasks == [] then None else Some(q.tasks[0]))
    case Return(_, _, _) =>
      var reply := Reply(s, a);
      th.(run := None, call := if reply.None? then NoCall else Posting(th.run.value.resp, reply.value))
    case Shutdown(_) => th.(armed := false)
  }

  /** Queue q, after step a. */
  function NextQueue(s: State, a: Step, q: QueueId): Queue
    requires Enabled(s, a) && q < |s.queues|
  {
    var th := s.threads[a.i];
    var v := s.queues[q];
    match a
    case Submit(_, r, t) => if r == q then Push(v, t) else v
    case Post(_) => if th.call.q == q then Push(v, th.call.task) else v
    case Write(_, out) => if th.call.q == q then v.(pipe := v.pipe + Delivered(out)) else v
    case Credit(_) => if th.call.q == q then CreditBack(s.cfg.policy, v, th.call.short) else v
    case Read(_, k) => if th.home == q then v.(pipe := v.pipe - k) else v
    case Dequeue(_) => if th.home == q && v.tasks != [] then Pop(v) else v
    case _ => v
  }

  /** What step a adds to the log: nothing, or one event. */
  function NextEvent(s: State, a: Step): seq<Event>
    requires Enabled(s, a)
  {
    var th := s.threads[a.i];
    match a
    case Submit(_, q, t) => [Enqueued(q, t, true)]
    case Post(_) => [Enqueued(th.call.q, th.call.task, false)]
    case Write(_, out) => [Sent(th.call.q, Delivered(out))]
    case Credit(_) => [GaveUp(th.call.q, th.call.short)]
    case Dequeue(_) =>
      var q := s.queues[th.home];
      if q.tasks == [] then [] else [Dequeued(th.home, q.tasks[0])]
    case Return(_, o, _) => [Finished(th.home, th.run.value, o, Reply(s, a))]
    case _ => []
  }

  /** The response a Return step allocates; its reply address is the exec_task_q_ of the task. */
  function Reply(s: State, a: Step): Option<Task>
    requires a.Return? && Enabled(s, a)
  {
    var t := s.threads[a.i].run.value;
    Respond(t, a.outcome, a.obj, s.execQ[t.obj])
  }

  /** One step. A Dequeue on an empty queue yields null, which taskq_cb then dereferences; one on
      a task whose exec_task_q_ is set fails the set-once assertion. */
  function Next(s: State, a: Step): (s': State)
    requires Enabled(s, a)
    ensures |s'.queues| == |s.queues| && |s'.threads| == |s.threads| && s'.cfg == s.cfg
  {
    var th := s.threads[a.i];
    var front := if a.Dequeue? then s.queues[th.home].tasks else [];
    State(
      s.cfg,
      seq(|s.queues|, q requires 0 <= q < |s.queues| => NextQueue(s, a, q)),
      s.threads[a.i := NextThread(s, a)],
      if front == [] then s.execQ else s.execQ[front[0].obj := th.home],
      if a.Submit? then s.made + {a.task.obj}
      else if a.Return? && Reply(s, a).Some? then s.made + {a.obj}
      else s.made,
      s.nullDeref || (a.Dequeue? && front == []),
      s.setTwice || (front != [] && front[0].obj in s.execQ),
      s.log + NextEvent(s, a))
  }

  /** The parts of the next state, for proofs that need no more of a step. */
  lemma NextParts(s: State, a: Step)
    requires Enabled(s, a)
    ensures a.i < |s.threads| && Next(s, a).threads == s.threads[a.i := NextThread(s, a)]
    ensures Next(s, a).log == s.log + NextEvent(s, a) && |NextEvent(s, a)| <= 1
    ensures forall q | 0 <= q < |s.queues| :: Next(s, a).queues[q] == NextQueue(s, a, q)
  {
  }

  // ---- Runs ----

  ghost predicate CanRun(s: State, run: seq<Step>)
    decreases |run|
  {
    run == [] || (Enabled(s, run[0]) && CanRun(Next(s, run[0]), run[1..]))
  }

  ghost function After(s: State, run: seq<Step>): (end: State)
    requires CanRun(s, run)
    ensures |end.queues| == |s.queues| && |end.threads| == |s.threads| && end.cfg == s.cfg
    decreases |run|
  {
    if run == [] then s else After(Next(s, run[0]), run[1..])
  }

  /** Queues as constructed and threads outside every call; any number of either, any pipe
      capacities, workers already armed. */
  ghost predicate Init(s: State) {
    && (forall q | 0 <= q < |s.queues| ::
          s.queues[q] == Queue([], 0, 0, INITIAL_MAX, 0, 0, s.queues[q].capacity))
    && (forall i | 0 <= i < |s.threads| ::
          && s.threads[i].home < |s.queues|
          && s.threads[i] == Thread(s.threads[i].home, s.threads[i].armed, false, 0, None, NoCall))
    && s.execQ == map[] && s.made == {} && !s.nullDeref && !s.setTwice && s.log == []
  }

  lemma {:induction false} RunAppend(s: State, run: seq<Step>, a: Step)
    requires CanRun(s, run) && Enabled(After(s, run), a)
    ensures CanRun(s, run + [a]) && After(s, run + [a]) == Next(After(s, run), a)
    decreases |run|
  {
    hide Enabled, Next;
    if run == [] {
      assert [a][1..] == [];
    } else {
      assert (run + [a])[1..] == run[1..] + [a];
      RunAppend(Next(s, run[0]), run[1..], a);
    }
  }

  lemma {:induction false} RunConcat(s: State, run: seq<Step>, more: seq<Step>)
    requires CanRun(s, run) && CanRun(After(s, run), more)
    ensures CanRun(s, run + more) && After(s, run + more) == After(After(s, run), more)
    decreases |run|
  {
    hide Enabled, Next;
    if run == [] {
      assert run + more == more;
    } else {
      assert (run + more)[1..] == run[1..] + more;
      RunConcat(Next(s, run[0]), run[1..], more);
    }
  }
}
