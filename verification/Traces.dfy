/** The steps one thread takes inside one library call, written as sequences. */
module Traces {
  import opened Sums
  import opened Tasks
  import opened Protocol

  // ---- The attempts of NotifyQ ----

  /** Bytes delivered by a sequence of writes. */
  ghost function Total(outs: seq<WriteOutcome>): nat {
    if outs == [] then 0 else Total(outs[..|outs| - 1]) + Delivered(outs[|outs| - 1])
  }

  ghost function WriteSteps(i: ThreadId, outs: seq<WriteOutcome>): seq<Step> {
    seq(|outs|, k requires 0 <= k < |outs| => Write(i, outs[k]))
  }

  ghost predicate HardError(outs: seq<WriteOutcome>) {
    outs != [] && outs[|outs| - 1].Failed?
  }

  /** Each attempt was made with bytes still to send and no hard error before it, sent at most
      those, and all or nothing of them if they were few enough for an atomic write. */
  ghost predicate Tried(pipeBuf: nat, n: nat, outs: seq<WriteOutcome>) {
    outs != [] ==>
      var before, k := outs[..|outs| - 1], Delivered(outs[|outs| - 1]);
      && Tried(pipeBuf, n, before) && Total(before) < n && !HardError(before)
      && Total(before) + k <= n
      && (n - Total(before) <= pipeBuf ==> k == 0 || Total(before) + k == n)
  }

  /** The attempts NotifyQ makes for n bytes: it stops at a hard error, when everything is sent,
      or after three attempts, and not before. */
  ghost predicate NotifyAttempts(pipeBuf: nat, n: nat, outs: seq<WriteOutcome>) {
    && |outs| <= RETRIES && Tried(pipeBuf, n, outs) && Total(outs) <= n
    && (Total(outs) == n || |outs| == RETRIES || HardError(outs))
  }

  lemma {:induction false} TriedIsWhole(pipeBuf: nat, n: nat, outs: seq<WriteOutcome>)
    requires Tried(pipeBuf, n, outs) && n <= pipeBuf
    ensures Total(outs) == 0 || Total(outs) == n
  {
    if outs != [] {
      TriedIsWhole(pipeBuf, n, outs[..|outs| - 1]);
    }
  }

  /** A request small enough for an atomic write is notified whole or not at all, and not at all
      only if every attempt sent nothing and there were three of them or a hard error. */
  lemma AllOrNothing(pipeBuf: nat, n: nat, outs: seq<WriteOutcome>)
    requires NotifyAttempts(pipeBuf, n, outs) && n <= pipeBuf
    ensures Total(outs) == 0 || Total(outs) == n
    ensures Total(outs) == n <==> n == 0 || exists out :: out in outs && 0 < Delivered(out)
  {
    TriedIsWhole(pipeBuf, n, outs);
    TotalPositive(outs);
  }

  lemma {:induction false} TotalPositive(outs: seq<WriteOutcome>)
    ensures 0 < Total(outs) <==> exists out :: out in outs && 0 < Delivered(out)
  {
    if outs != [] {
      var before, last := outs[..|outs| - 1], outs[|outs| - 1];
      TotalPositive(before);
      assert forall out :: out in outs <==> out in before || out == last;
    }
  }

  lemma NoAttempts(i: ThreadId, own: seq<Step>)
    ensures own + WriteSteps(i, []) == own && Total([]) == 0
  {
  }

  lemma StepsAppend(i: ThreadId, own: seq<Step>, outs: seq<WriteOutcome>, out: WriteOutcome)
    ensures own + WriteSteps(i, outs + [out]) == own + WriteSteps(i, outs) + [Write(i, out)]
  {
    assert WriteSteps(i, outs + [out]) == WriteSteps(i, outs) + [Write(i, out)];
  }

  lemma AttemptAppend(pipeBuf: nat, n: nat, outs: seq<WriteOutcome>, out: WriteOutcome)
    ensures Total(outs + [out]) == Total(outs) + Delivered(out)
    ensures HardError(outs + [out]) == out.Failed?
    ensures Tried(pipeBuf, n, outs) && Total(outs) < n && !HardError(outs) && Total(outs) + Delivered(out) <= n
            && (n - Total(outs) <= pipeBuf ==> Delivered(out) == 0 || Total(outs) + Delivered(out) == n)
            ==> Tried(pipeBuf, n, outs + [out])
  {
    assert (outs + [out])[..|outs|] == outs;
  }

  /** The same thread, but for its read event, now at call c. */
  predicate AtCall(before: Thread, now: Thread, c: Call) {
    now == before.(armed := now.armed, call := c)
  }

  /** Step a is thread i pushing this task on queue q. */
  predicate Pushes(s: State, a: Step, i: ThreadId, q: QueueId, task: Task) {
    match a
    case Submit(j, r, t) => j == i && r == q && t == task
    case Post(j) => j == i && i < |s.threads| && s.threads[i].call == Posting(q, task)
    case _ => false
  }

  /** The steps of one call of EnqueueGTask whose push is step a and asked for n bytes. */
  ghost function EnqueueSteps(i: ThreadId, a: Step, n: nat, outs: seq<WriteOutcome>): seq<Step> {
    [a] + WriteSteps(i, outs) + if Total(outs) < n then [Credit(i)] else []
  }

  lemma Regroup<T>(x: seq<T>, y: seq<T>, z: seq<T>)
    ensures x + (y + z) == x + y + z && x + [] == x
  {
  }

  lemma EnqueueStepsShape(i: ThreadId, own: seq<Step>, a: Step, n: nat, outs: seq<WriteOutcome>)
    ensures own + EnqueueSteps(i, a, n, outs) ==
              own + [a] + WriteSteps(i, outs) + if Total(outs) < n then [Credit(i)] else []
    ensures own + [a] + WriteSteps(i, outs) + [] == own + [a] + WriteSteps(i, outs)
  {
    hide WriteSteps;
    var credit := if Total(outs) < n then [Credit(i)] else [];
    Regroup(own, [a] + WriteSteps(i, outs), credit);
    Regroup(own, [a], WriteSteps(i, outs));
  }

  /** One call of EnqueueGTask made by user code: what it submitted, the bytes it asked for, and
      how the writes went. */
  datatype UserCall = UserCall(q: QueueId, task: Task, n: nat, outs: seq<WriteOutcome>)

  ghost function CallSteps(i: ThreadId, calls: seq<UserCall>): seq<Step> {
    if calls == [] then []
    else
      var c := calls[|calls| - 1];
      CallSteps(i, calls[..|calls| - 1]) + EnqueueSteps(i, Submit(i, c.q, c.task), c.n, c.outs)
  }

  lemma CallStepsAppend(i: ThreadId, own: seq<Step>, calls: seq<UserCall>, c: UserCall)
    ensures own + CallSteps(i, calls + [c]) ==
              own + CallSteps(i, calls) + EnqueueSteps(i, Submit(i, c.q, c.task), c.n, c.outs)
  {
    assert (calls + [c])[..|calls|] == calls;
    hide EnqueueSteps;
    Regroup(own, CallSteps(i, calls), EnqueueSteps(i, Submit(i, c.q, c.task), c.n, c.outs));
  }

  lemma NoCalls(i: ThreadId, own: seq<Step>)
    ensures own + CallSteps(i, []) == own
  {
  }

  /** The object step a may bring into the system. */
  function Brings(a: Step): set<ObjectId> {
    match a
    case Submit(_, _, task) => {task.obj}
    case Return(_, _, obj) => {obj}
    case _ => {}
  }

  /** The task thread i would dequeue. */
  function FrontOf(s: State, i: ThreadId): Option<Task>
    requires i < |s.threads| && s.threads[i].home < |s.queues|
  {
    var tasks := s.queues[s.threads[i].home].tasks;
    if tasks == [] then None else Some(tasks[0])
  }

  /** The parts of the state a step changes, one by one. */
  lemma StepEffects(s: State, a: Step)
    requires Enabled(s, a)
    ensures var s' := Next(s, a);
            && s'.cfg == s.cfg && s'.threads == s.threads[a.i := NextThread(s, a)]
            && s'.made <= s.made + Brings(a)
            && (!a.Dequeue? ==> s'.execQ == s.execQ)
            && (a.Dequeue? && FrontOf(s, a.i).Some? ==>
                  s'.execQ == s.execQ[FrontOf(s, a.i).value.obj := s.threads[a.i].home])
            && (a.Return? || a.Wake? || a.Leave? ==> s'.queues == s.queues)
  {
  }

  /** One Execute: the calls its user function made, how it ended, the object allocated for its
      response, and the notification of that response, if there was one. */
  datatype Execution = Execution(
    calls: seq<UserCall>, outcome: Outcome, obj: ObjectId, n: nat, outs: seq<WriteOutcome>)

  predicate Replies(task: Task, o: Outcome) { ResponseWork(task, o) != [] }

  ghost function ExecuteSteps(i: ThreadId, task: Task, x: Execution): seq<Step> {
    CallSteps(i, x.calls) + [Return(i, x.outcome, x.obj)]
    + if Replies(task, x.outcome) then EnqueueSteps(i, Post(i), x.n, x.outs) else []
  }

  lemma ExecuteStepsShape(i: ThreadId, own: seq<Step>, task: Task, x: Execution)
    ensures own + ExecuteSteps(i, task, x) ==
              own + CallSteps(i, x.calls) + [Return(i, x.outcome, x.obj)]
              + if Replies(task, x.outcome) then EnqueueSteps(i, Post(i), x.n, x.outs) else []
    ensures own + CallSteps(i, x.calls) + [Return(i, x.outcome, x.obj)] + [] ==
              own + CallSteps(i, x.calls) + [Return(i, x.outcome, x.obj)]
  {
    hide EnqueueSteps, CallSteps, ResponseWork;
    var tail := if Replies(task, x.outcome) then EnqueueSteps(i, Post(i), x.n, x.outs) else [];
    Regroup(own, CallSteps(i, x.calls) + [Return(i, x.outcome, x.obj)], tail);
    Regroup(own, CallSteps(i, x.calls), [Return(i, x.outcome, x.obj)]);
  }

  // ---- Bytes, dequeues and executions among a thread's own steps ----

  /** A user function that was called, for this task, and how it ended. */
  datatype FunctionRun = FunctionRun(task: Task, outcome: Outcome)

  ghost const BYTES: Step -> int := (a: Step) => if a.Read? then a.k else 0

  ghost const DEQUEUES: Step -> int := (a: Step) => if a.Dequeue? then 1 else 0

  ghost const RETURNED: Step -> seq<Outcome> := (a: Step) => if a.Return? then [a.outcome] else []

  function Outcomes(runs: seq<FunctionRun>): seq<Outcome> {
    seq(|runs|, k requires 0 <= k < |runs| => runs[k].outcome)
  }

  /** Every byte read has paid for one dequeue and one call of a user function, but for `credits` of
      them and the `open` functions still running; each read fits a buffer of 4096 bytes; and the
      functions called are those that returned, in order and with those outcomes. */
  ghost predicate Spending(own: seq<Step>, runs: seq<FunctionRun>, credits: int, open: nat) {
    && Sum(own, BYTES) == Sum(own, DEQUEUES) + credits && Sum(own, DEQUEUES) == |runs| + open
    && Flat(own, RETURNED) == Outcomes(runs)
    && ReadsFit(own)
  }

  ghost predicate Spent(own: seq<Step>, runs: seq<FunctionRun>, credits: int) {
    Spending(own, runs, credits, 0)
  }

  predicate ReadsFit(own: seq<Step>) {
    forall a | a in own && a.Read? :: 1 <= a.k <= 4096
  }

  /** The steps of calls of EnqueueGTask: they read, dequeue and return nothing. */
  predicate OnlyEnqueues(own: seq<Step>) {
    forall a | a in own :: a.Submit? || a.Post? || a.Write? || a.Credit?
  }

  lemma EnqueueOnlyEnqueues(i: ThreadId, a: Step, n: nat, outs: seq<WriteOutcome>)
    requires a.Post? || a.Submit?
    ensures OnlyEnqueues(EnqueueSteps(i, a, n, outs))
  {
  }

  lemma {:induction false} CallsOnlyEnqueue(i: ThreadId, calls: seq<UserCall>)
    ensures OnlyEnqueues(CallSteps(i, calls))
  {
    if calls != [] {
      var c := calls[|calls| - 1];
      CallsOnlyEnqueue(i, calls[..|calls| - 1]);
      EnqueueOnlyEnqueues(i, Submit(i, c.q, c.task), c.n, c.outs);
    }
  }

  lemma NothingSpent()
    ensures Spent([], [], 0)
  {
  }

  lemma SpentOneStep(own: seq<Step>, runs: seq<FunctionRun>, a: Step, credits: int)
    requires Spent(own, runs, credits)
    ensures a.Read? && 1 <= a.k <= 4096 ==> Spent(own + [a], runs, credits + a.k)
    ensures a.Leave? ==> Spent(own + [a], runs, credits)
  {
    SumAppend(own, a, BYTES);
    SumAppend(own, a, DEQUEUES);
    FlatAppend(own, a, RETURNED);
  }

  lemma SpentMore(own: seq<Step>, runs: seq<FunctionRun>, more: seq<Step>, credits: int, open: nat)
    requires Spending(own, runs, credits, open) && OnlyEnqueues(more)
    ensures Spending(own + more, runs, credits, open)
  {
    SumZero(more, BYTES);
    SumZero(more, DEQUEUES);
    FlatNothing(more, RETURNED);
    SumConcat(own, more, BYTES);
    SumConcat(own, more, DEQUEUES);
    FlatConcat(own, more, RETURNED);
  }

  lemma SpentOnDequeue(own: seq<Step>, runs: seq<FunctionRun>, i: ThreadId, credits: int)
    requires Spent(own, runs, credits)
    ensures Spending(own + [Dequeue(i)], runs, credits - 1, 1)
  {
    SumAppend(own, Dequeue(i), BYTES);
    SumAppend(own, Dequeue(i), DEQUEUES);
    FlatAppend(own, Dequeue(i), RETURNED);
  }

  lemma SpentOnReturn(own: seq<Step>, runs: seq<FunctionRun>, i: ThreadId, run: FunctionRun, obj: ObjectId,
                      credits: int)
    requires Spending(own, runs, credits, 1)
    ensures Spent(own + [Return(i, run.outcome, obj)], runs + [run], credits)
  {
    var a := Return(i, run.outcome, obj);
    SumAppend(own, a, BYTES);
    SumAppend(own, a, DEQUEUES);
    FlatAppend(own, a, RETURNED);
    assert Outcomes(runs + [run]) == Outcomes(runs) + [run.outcome];
  }

  lemma SpentOnTask(own: seq<Step>, runs: seq<FunctionRun>, i: ThreadId, task: Task, x: Execution, credits: int)
    requires Spent(own, runs, credits)
    ensures Spent(own + [Dequeue(i)] + ExecuteSteps(i, task, x), runs + [FunctionRun(task, x.outcome)], credits - 1)
  {
    var d, run := own + [Dequeue(i)], FunctionRun(task, x.outcome);
    var r := d + CallSteps(i, x.calls) + [Return(i, x.outcome, x.obj)];
    CallsOnlyEnqueue(i, x.calls);
    EnqueueOnlyEnqueues(i, Post(i), x.n, x.outs);
    ExecuteStepsShape(i, d, task, x);
    hide Spending, CallSteps, EnqueueSteps, ExecuteSteps, OnlyEnqueues;
    SpentOnDequeue(own, runs, i, credits);
    SpentMore(d, runs, CallSteps(i, x.calls), credits - 1, 1);
    SpentOnReturn(d + CallSteps(i, x.calls), runs, i, run, x.obj, credits - 1);
    if Replies(task, x.outcome) {
      SpentMore(r, runs + [run], EnqueueSteps(i, Post(i), x.n, x.outs), credits - 1, 0);
    }
  }

  /** NotifyQ between two attempts: `left` of n bytes and `retries` of three attempts to go. */
  ghost predicate Sending(pipeBuf: nat, n: nat, left: nat, retries: nat, outs: seq<WriteOutcome>) {
    left + Total(outs) == n && |outs| + retries == RETRIES && Tried(pipeBuf, n, outs) && !HardError(outs)
  }

  lemma SendingStarts(pipeBuf: nat, n: nat)
    ensures Sending(pipeBuf, n, n, RETRIES, [])
  {
  }

  lemma SendingEnds(pipeBuf: nat, q: QueueId, n: nat, left: nat, retries: nat, outs: seq<WriteOutcome>)
    requires Sending(pipeBuf, n, left, retries, outs) && (left == 0 || retries == 0)
    ensures NotifyAttempts(pipeBuf, n, outs) && !HardError(outs) && Total(outs) == n - left
    ensures Attempts(q, left, retries) == Attempts(q, left, 0)
  {
  }

  lemma SendingStep(pipeBuf: nat, before: Thread, th: Thread, th': Thread, q: QueueId,
                    n: nat, left: nat, retries: nat, outs: seq<WriteOutcome>, rc: WriteOutcome)
    requires Sending(pipeBuf, n, left, retries, outs) && AtCall(before, th, Attempts(q, left, retries))
    requires 0 < left && 0 < retries && WholeIfSmall(pipeBuf, left, rc)
    requires AtCall(th, th', AfterWrite(q, left, retries, rc))
    ensures !rc.Failed? ==>
              && Sending(pipeBuf, n, left - Delivered(rc), retries - 1, outs + [rc])
              && AtCall(before, th', Attempts(q, left - Delivered(rc), retries - 1))
    ensures rc.Failed? ==>
              && NotifyAttempts(pipeBuf, n, outs + [rc]) && HardError(outs + [rc])
              && Total(outs + [rc]) == Total(outs) == n - left
              && AtCall(before, th', Attempts(q, left, 0))
  {
    AttemptAppend(pipeBuf, n, outs, rc);
  }

  /** What Legal says of a write of n bytes, whatever is in the pipe. */
  predicate WholeIfSmall(pipeBuf: nat, n: nat, rc: WriteOutcome) {
    Delivered(rc) <= n && (n <= pipeBuf ==> Delivered(rc) == 0 || Delivered(rc) == n)
  }

  /** A task dequeued and executed: one byte spent, the steps appended. */
  lemma TaskTrace(before: seq<Step>, own: seq<Step>, runs: seq<FunctionRun>, i: ThreadId, task: Task, x: Execution,
                  credits: int)
    requires Spent(own, runs, credits)
    ensures var own' := own + [Dequeue(i)] + ExecuteSteps(i, task, x);
            && Spent(own', runs + [FunctionRun(task, x.outcome)], credits - 1) && own' != []
            && before + own + [Dequeue(i)] + ExecuteSteps(i, task, x) == before + own'
  {
    SpentOnTask(own, runs, i, task, x, credits);
    hide ExecuteSteps, Spent;
    Regroup(before + own, [Dequeue(i)], ExecuteSteps(i, task, x));
    Regroup(before, own, [Dequeue(i)] + ExecuteSteps(i, task, x));
    Regroup(own, [Dequeue(i)], ExecuteSteps(i, task, x));
  }

  /** A read that found bytes, or none. */
  lemma ReadTrace(before: seq<Step>, own: seq<Step>, runs: seq<FunctionRun>, i: ThreadId, numBytes: int)
    requires Spent(own, runs, 0) && numBytes <= 4096
    ensures var a := if numBytes > 0 then Read(i, numBytes) else Leave(i);
            && Spent(own + [a], runs, if numBytes > 0 then numBytes else 0)
            && (own + [a])[|own|] == a
            && before + own + [a] == before + (own + [a])
  {
    var a := if numBytes > 0 then Read(i, numBytes) else Leave(i);
    SpentOneStep(own, runs, a, 0);
    Regroup(before, own, [a]);
  }

  /** What a Return step does to its thread. */
  lemma ReturnEffect(s: State, i: ThreadId, task: Task, outcome: Outcome, obj: ObjectId)
    requires Enabled(s, Return(i, outcome, obj)) && s.threads[i].run == Some(task)
    ensures var reply := Respond(task, outcome, obj, s.execQ[task.obj]);
            NextThread(s, Return(i, outcome, obj)) ==
              s.threads[i].(run := None, call := if reply.None? then NoCall else Posting(task.resp, reply.value))
  {
  }
}
