/** The library's code as threads run it, interleaved with every other thread: each method is
    proved to take exactly its own steps of the protocol. */
module Executor {
  import opened Sums
  import opened Tasks
  import opened Protocol
  import opened Accounting
  import opened SetOnce
  import opened Progress
  import opened Refinement
  import opened Traces
  import opened TaskQueue

  /** What the threads have called, with one more call by thread i. */
  ghost function Recorded(ran: ThreadId -> seq<FunctionRun>, i: ThreadId, run: FunctionRun)
    : ThreadId -> seq<FunctionRun>
  {
    (j: ThreadId) => if j == i then ran(j) + [run] else ran(j)
  }

  /** The process: its queues, the exec_task_q_ fields of its task objects, and the allocator's
      high-water mark. `once` says that callers submit each object at most once; without it they
      may submit what they like. `budget` bounds the submissions user code has yet to make. Ghost:
      the protocol state all threads have reached, and the user functions each has called. */
  class Process {
    const cfg: Config
    const once: bool
    const queues: seq<GTaskQ>
    var execQ: map<ObjectId, QueueId>
    var nextObj: ObjectId
    var budget: nat
    ghost var s: State
    ghost var ran: ThreadId -> seq<FunctionRun>

    ghost predicate Valid()
      reads this, queues
    {
      && Kept(once, s)
      && s.cfg == cfg
      && execQ == s.execQ
      && (forall o | o in s.made :: o < nextObj)
      && |queues| == |s.queues|
      && (forall q, r | 0 <= q < r < |queues| :: queues[q] != queues[r])
      && (forall q | 0 <= q < |queues| :: queues[q].View() == s.queues[q])
    }

    constructor (cfg: Config, once: bool, queues: seq<GTaskQ>, ghost threads: seq<Thread>, budget: nat)
      requires forall q, r | 0 <= q < r < |queues| :: queues[q] != queues[r]
      requires forall q | 0 <= q < |queues| ::
                 queues[q].View() == Queue([], 0, 0, INITIAL_MAX, 0, 0, queues[q].capacity)
      requires forall i | 0 <= i < |threads| ::
                 threads[i] == Thread(threads[i].home, threads[i].armed, false, 0, None, NoCall)
                 && threads[i].home < |queues|
      ensures Valid() && Init(s) && s.threads == threads
      ensures this.cfg == cfg && this.once == once && this.queues == queues && this.budget == budget
    {
      this.cfg, this.once, this.queues, this.budget := cfg, once, queues, budget;
      execQ, nextObj := map[], 0;
      ran := _ => [];
      s := State(cfg,
                 seq(|queues|, q requires 0 <= q < |queues| =>
                       Queue([], 0, 0, INITIAL_MAX, 0, 0, queues[q].capacity)),
                 threads, map[], {}, false, false, []);
      new;
      InitSafe(s);
    }

    /** The state has come from `from` along a run in which thread i took exactly `own`. */
    ghost predicate Along(from: State, i: ThreadId, own: seq<Step>)
      reads this, queues
    {
      Valid() && i < |s.threads| && |s.threads| == |from.threads| && Ran(once, from, s, i, own)
    }

    ghost function FuelLeft(): int
      reads this
    {
      Fuel(s, budget)
    }

    /** What other threads may do while this one is between two atomic actions: any run of theirs.
        The body does nothing; callers know only the contract. */
    method Interfere(ghost i: ThreadId)
      requires Valid()
      modifies this, queues
      ensures ran(i) == old(ran(i))
      ensures Valid()
      ensures budget <= old(budget) && OthersRan(once, old(s), s, i, old(budget) - budget)
    {
      NobodyRan(once, s, i);
    }

    /** A point where thread i may be interrupted; `own` are its steps since state `from`. */
    method Yield(ghost i: ThreadId, ghost from: State, ghost own: seq<Step>)
      requires Along(from, i, own)
      modifies this, queues
      ensures ran(i) == old(ran(i))
      ensures Along(from, i, own)
      ensures SameThread(old(s), s, i) && 0 <= FuelLeft() <= old(FuelLeft())
      ensures old(execQ).Keys <= execQ.Keys
    {
      ThreadIsOk(i);
      hide Kept, Ran, Fuel;
      Interfere(i);
      OthersBurnFuel(once, old(s), s, i, old(budget), budget);
      RanCompose(once, from, old(s), s, i, own, []);
      assert own + [] == own;
    }

    /** Thread a.i has just done, atomically, what step a does. */
    ghost method Commit(a: Step, from: State, own: seq<Step>)
      requires Kept(once, s) && Enabled(s, a) && (once ==> FreshStep(s, a))
      requires !a.Shutdown? && Ran(once, from, s, a.i, own)
      modifies this`s
      ensures Kept(once, s) && Ran(once, from, s, a.i, own + [a])
      ensures s.cfg == old(s).cfg && s.threads == old(s).threads[a.i := NextThread(old(s), a)]
      ensures !a.Dequeue? ==> s.execQ == old(s).execQ
      ensures a.Dequeue? && FrontOf(old(s), a.i).Some? ==>
                s.execQ == old(s).execQ[FrontOf(old(s), a.i).value.obj := old(s).threads[a.i].home]
      ensures Touched(old(s), a) < |old(s).queues|
      ensures s.queues == old(s).queues[Touched(old(s), a) := NextQueue(old(s), a, Touched(old(s), a))]
      ensures a.Return? || a.Wake? || a.Leave? ==> s.queues == old(s).queues
      ensures forall o | o in s.made :: o in old(s).made || o in Brings(a)
      ensures 0 <= FuelLeft() < old(FuelLeft()) + if a.Submit? then SubmitCost(old(s)) else 0
    {
      StepEffects(s, a);
      OnlyTouched(s, a);
      KeptAlong(once, from, s, a, own);
      assert Inv(s) && a.i < |s.threads| && s.threads[a.i].home < |s.queues|;
      hide Kept, Ran, Fuel, SubmitCost, Inv, Enabled, FreshStep, Next;
      hide NextThread, NextQueue, NextEvent, Touched, FrontOf, Brings;
      OwnStepBurnsFuel(s, a, budget);
      s := Next(s, a);
    }

    /** Only queue q changed, and its object agrees with the protocol state: all of them do. */
    twostate lemma ViewsAgree(q: QueueId)
      requires old(Valid()) && q < |queues| && |s.queues| == |queues|
      requires s.queues == old(s).queues[q := s.queues[q]]
      requires queues[q].View() == s.queues[q]
      requires forall r | 0 <= r < |queues| && r != q :: unchanged(queues[r])
      ensures forall r | 0 <= r < |queues| :: queues[r].View() == s.queues[r]
    {
    }

    // What the methods below need of the invariant.

    lemma ThreadIsOk(i: ThreadId)
      requires Valid() && i < |s.threads|
      ensures Inv(s) && ThreadOk(s, s.threads[i])
    {
    }

    lemma QueueIsOk(q: QueueId)
      requires Valid() && q < |queues|
      ensures Inv(s) && queues[q].pipe <= queues[q].capacity
    {
      assert QueueInv(s, q);
    }

    // ---- gtaskq.cc ----

    /** One write and its step. */
    method WriteNow(ghost i: ThreadId, q: QueueId, left: nat, ghost from: State, ghost own: seq<Step>)
      returns (rc: WriteOutcome)
      requires Along(from, i, own) && q < |queues| && ThreadOk(s, s.threads[i])
      requires s.threads[i].call.Notifying? && s.threads[i].call.q == q && s.threads[i].call.left == left
      modifies this`s, queues[q]
      ensures Along(from, i, own + [Write(i, rc)])
      ensures WholeIfSmall(cfg.pipeBuf, left, rc) && old(s).threads[i].call.retries > 0
      ensures AtCall(old(s).threads[i], s.threads[i], AfterWrite(q, left, old(s).threads[i].call.retries, rc))
      ensures FuelLeft() < old(FuelLeft())
    {
      hide Kept, Ran, Fuel;
      QueueIsOk(q);
      rc := queues[q].WritePipe(cfg, left);
      Commit(Write(i, rc), from, own);
      ViewsAgree(q);
    }

    /** One write, after a point where others may run. */
    method Attempt(ghost i: ThreadId, q: QueueId, left: nat, ghost from: State, ghost own: seq<Step>)
      returns (rc: WriteOutcome)
      requires Along(from, i, own) && q < |queues|
      requires s.threads[i].call.Notifying? && s.threads[i].call.q == q && s.threads[i].call.left == left
      modifies this, queues
      ensures ran(i) == old(ran(i))
      ensures Along(from, i, own + [Write(i, rc)])
      ensures WholeIfSmall(cfg.pipeBuf, left, rc) && 0 < old(s).threads[i].call.retries
      ensures AtCall(old(s).threads[i], s.threads[i], AfterWrite(q, left, old(s).threads[i].call.retries, rc))
      ensures FuelLeft() < old(FuelLeft())
    {
      hide Kept, Ran, Fuel;
      ThreadIsOk(i);
      Yield(i, from, own);
      ThreadIsOk(i);
      rc := WriteNow(i, q, left, from, own);
    }

    lemma WholeIfAsked(n: nat, outs: seq<WriteOutcome>)
      requires NotifyAttempts(cfg.pipeBuf, n, outs)
      ensures n <= cfg.pipeBuf ==> Total(outs) == 0 || Total(outs) == n
    {
      if n <= cfg.pipeBuf {
        AllOrNothing(cfg.pipeBuf, n, outs);
      }
    }

    /** Send the reserved bytes, in at most three attempts, other threads running in between. */
    method NotifyQ(ghost i: ThreadId, q: QueueId, numNotifn: nat, ghost from: State, ghost own: seq<Step>)
      returns (error: int, numNotified: nat, ghost outs: seq<WriteOutcome>)
      requires Along(from, i, own) && q < |queues|
      requires s.threads[i].call == Attempts(q, numNotifn, RETRIES)
      modifies this, queues
      ensures ran(i) == old(ran(i))
      ensures Along(from, i, own + WriteSteps(i, outs))
      ensures NotifyAttempts(cfg.pipeBuf, numNotifn, outs) && numNotified == Total(outs)
      ensures numNotifn <= cfg.pipeBuf ==> numNotified == 0 || numNotified == numNotifn
      ensures |outs| <= 3 && (|outs| == 3 || numNotified == numNotifn || HardError(outs))
      ensures error == if HardError(outs) then outs[|outs| - 1].errno else 0
      ensures AtCall(old(s).threads[i], s.threads[i], Attempts(q, numNotifn - numNotified, 0))
      ensures FuelLeft() <= old(FuelLeft())
    {
      hide Kept, Ran, Fuel, Sending, NotifyAttempts, HardError, Total, AfterWrite, WriteSteps;
      var retryCount: nat, left: nat := 3, numNotifn;
      SendingStarts(cfg.pipeBuf, numNotifn);
      numNotified, error, outs := 0, 0, [];
      NoAttempts(i, own);
      while retryCount > 0 && left > 0
        invariant ran(i) == old(ran(i))
        invariant Along(from, i, own + WriteSteps(i, outs)) && FuelLeft() <= old(FuelLeft())
        invariant Sending(cfg.pipeBuf, numNotifn, left, retryCount, outs)
        invariant left + numNotified == numNotifn && error == 0
        invariant AtCall(old(s).threads[i], s.threads[i], Attempts(q, left, retryCount))
      {
        ghost var th := s.threads[i];
        var rc := Attempt(i, q, left, from, own + WriteSteps(i, outs));
        SendingStep(cfg.pipeBuf, old(s).threads[i], th, s.threads[i], q, numNotifn, left, retryCount, outs, rc);
        StepsAppend(i, own, outs, rc);
        outs := outs + [rc];
        retryCount := retryCount - 1;
        if rc.Again? || rc.Interrupted? {
          continue;
        } else if rc.Failed? {
          error := rc.errno;
          WholeIfAsked(numNotifn, outs);
          return;
        } else if rc.k > 0 {
          numNotified := numNotified + rc.k;
          left := left - rc.k;
          continue;
        }
      }
      SendingEnds(cfg.pipeBuf, q, numNotifn, left, retryCount, outs);
      WholeIfAsked(numNotifn, outs);
    }

    /** The first critical section of EnqueueGTask and its step: a submission by user code, or the
        posting of a response. */
    method PushNow(ghost i: ThreadId, q: QueueId, task: Task, ghost a: Step, ghost from: State, ghost own: seq<Step>)
      returns (n: nat)
      requires Along(from, i, own) && q < |queues|
      requires Enabled(s, a) && (once ==> FreshStep(s, a)) && Pushes(s, a, i, q, task)
      requires a.Submit? ==> task.obj < nextObj
      modifies this`s, queues[q]
      ensures Along(from, i, own + [a])
      ensures n == Request(old(s).queues[q]) && AtCall(old(s).threads[i], s.threads[i], Attempts(q, n, RETRIES))
      ensures FuelLeft() < old(FuelLeft()) + if a.Submit? then SubmitCost(old(s)) else 0
    {
      hide Kept, Ran, Fuel;
      n := queues[q].PushLocked(task);
      Commit(a, from, own);
      ViewsAgree(q);
    }

    /** The second critical section of EnqueueGTask and its step. */
    method CreditNow(ghost i: ThreadId, q: QueueId, short: nat, ghost from: State, ghost own: seq<Step>)
      requires Along(from, i, own) && q < |queues| && ThreadOk(s, s.threads[i])
      requires s.threads[i].call == Crediting(q, short)
      modifies this`s, queues[q]
      ensures Along(from, i, own + [Credit(i)])
      ensures AtCall(old(s).threads[i], s.threads[i], NoCall)
      ensures FuelLeft() < old(FuelLeft())
    {
      hide Kept, Ran, Fuel;
      queues[q].CreditLocked(cfg.policy, short);
      Commit(Credit(i), from, own);
      ViewsAgree(q);
    }

    /** Retake the lock, after a point where others may run, and record the shortfall. */
    method CreditShortfall(ghost i: ThreadId, q: QueueId, short: nat, ghost from: State, ghost own: seq<Step>)
      requires Along(from, i, own) && q < |queues|
      requires s.threads[i].call == Crediting(q, short)
      modifies this, queues
      ensures ran(i) == old(ran(i))
      ensures Along(from, i, own + [Credit(i)])
      ensures AtCall(old(s).threads[i], s.threads[i], NoCall)
      ensures FuelLeft() <= old(FuelLeft())
    {
      hide Kept, Ran, Fuel;
      Yield(i, from, own);
      ThreadIsOk(i);
      CreditNow(i, q, short, from, own);
    }

    /** EnqueueGTask. It asks for what the push reserves. Its steps are that push, the writes of
        NotifyQ, and a credit exactly if they fell short; then the thread is where it was. If the
        request is small enough for atomic writes, the shortfall is all of it. */
    method EnqueueGTask(ghost i: ThreadId, q: QueueId, task: Task, ghost a: Step,
                        ghost from: State, ghost own: seq<Step>)
      returns (ghost n: nat, ghost outs: seq<WriteOutcome>)
      requires Along(from, i, own) && q < |queues|
      requires Enabled(s, a) && (once ==> FreshStep(s, a)) && Pushes(s, a, i, q, task)
      requires a.Submit? ==> task.obj < nextObj
      modifies this, queues
      ensures ran(i) == old(ran(i))
      ensures n == Request(old(s).queues[q]) && NotifyAttempts(cfg.pipeBuf, n, outs)
      ensures n <= cfg.pipeBuf ==> Total(outs) == 0 || Total(outs) == n
      ensures Along(from, i, own + EnqueueSteps(i, a, n, outs))
      ensures AtCall(old(s).threads[i], s.threads[i], NoCall)
      ensures FuelLeft() < old(FuelLeft()) + if a.Submit? then SubmitCost(old(s)) else 0
    {
      hide Kept, Ran, Fuel;
      var numNotifn := PushNow(i, q, task, a, from, own);
      var _, numNotified, tried := NotifyQ(i, q, numNotifn, from, own + [a]);
      n, outs := numNotifn, tried;
      EnqueueStepsShape(i, own, a, n, outs);
      if numNotifn - numNotified > 0 {
        CreditShortfall(i, q, numNotifn - numNotified, from, own + [a] + WriteSteps(i, outs));
      }
    }

    /** A thread with a byte in hand finds a task; one that no dequeue has touched, if callers
        submit each object at most once. */
    lemma FrontReady(i: ThreadId)
      requires Valid() && i < |s.threads| && 0 < s.threads[i].credits
      ensures s.threads[i].home < |s.queues|
      ensures var tasks := s.queues[s.threads[i].home].tasks; tasks != [] && (once ==> tasks[0].obj !in s.execQ)
    {
      assert ThreadOk(s, s.threads[i]);
      ByteImpliesTask(s, i);
      if once {
        FrontIsUnclaimed(s, s.threads[i].home);
      }
    }

    /** PopLocked and set_exec_task_q, and their step. The assertion in the latter is proved to
        hold if callers submit each object at most once. */
    method PopNow(ghost i: ThreadId, q: QueueId, ghost from: State, ghost own: seq<Step>)
      returns (task: Option<Task>)
      requires Along(from, i, own) && q < |queues| && q < |s.queues| && Draining(s.threads[i])
      requires s.threads[i].home == q && Enabled(s, Dequeue(i))
      requires s.queues[q].tasks != [] && (once ==> s.queues[q].tasks[0].obj !in s.execQ)
      modifies this`s, this`execQ, queues[q]
      ensures Along(from, i, own + [Dequeue(i)])
      ensures task.Some? && execQ == old(execQ)[task.value.obj := q]
      ensures once ==> task.value.obj !in old(execQ)
      ensures s.threads[i] == old(s).threads[i].(credits := old(s).threads[i].credits - 1, run := task)
      ensures FuelLeft() < old(FuelLeft())
    {
      hide Kept, Ran, Fuel;
      task := queues[q].PopLocked();
      if task.Some? {
        assert once ==> task.value.obj !in execQ;
        execQ := execQ[task.value.obj := q];
      }
      Commit(Dequeue(i), from, own);
      ViewsAgree(q);
    }

    /** DequeueGTask as taskq_cb calls it, with a byte in hand: it never comes back empty. If callers
        submit each object at most once, exec_task_q_ was null before it set it. */
    method DequeueGTask(ghost i: ThreadId, q: QueueId, ghost from: State, ghost own: seq<Step>)
      returns (task: Option<Task>)
      requires Along(from, i, own) && q < |queues| && Draining(s.threads[i]) && s.threads[i].home == q
      modifies this, queues
      ensures ran(i) == old(ran(i))
      ensures Along(from, i, own + [Dequeue(i)])
      ensures task.Some? && task.value.obj in execQ && execQ[task.value.obj] == q
      ensures once ==> task.value.obj !in old(execQ)
      ensures var th := old(s).threads[i];
              s.threads[i] == th.(armed := s.threads[i].armed, credits := th.credits - 1, run := task)
      ensures FuelLeft() < old(FuelLeft())
    {
      hide Kept, Ran, Fuel;
      Yield(i, from, own);
      FrontReady(i);
      task := PopNow(i, q, from, own);
    }

    // ---- deferred_task.h ----

    /** The response object, if the outcome has a hook to call. */
    method MakeReply(task: Task, outcome: Outcome) returns (reply: Option<Task>)
      requires task.obj in execQ
      modifies this`nextObj
      ensures reply == Respond(task, outcome, old(nextObj), execQ[task.obj])
      ensures nextObj == old(nextObj) + 1
    {
      match outcome {
        case Returned(result) =>
          if task.callback.None? {
            reply := None;
          } else {
            reply := Some(Task(nextObj, Callback(task.callback.value, result), None, None, execQ[task.obj]));
          }
        case Threw(code) =>
          if task.errback.None? {
            reply := None;
          } else {
            reply := Some(Task(nextObj, Errback(task.errback.value, code), None, None, execQ[task.obj]));
          }
      }
      nextObj := nextObj + 1;
    }

    /** The Return step, with its effect on the thread spelled out. */
    ghost method CommitReturn(i: ThreadId, task: Task, outcome: Outcome, obj: ObjectId, from: State, own: seq<Step>)
      requires Kept(once, s) && Ran(once, from, s, i, own) && i < |s.threads| && |s.threads| == |from.threads|
      requires s.threads[i].run == Some(task) && Enabled(s, Return(i, outcome, obj))
      modifies this`s
      ensures Kept(once, s) && Ran(once, from, s, i, own + [Return(i, outcome, obj)])
      ensures s.cfg == old(s).cfg && s.queues == old(s).queues && s.execQ == old(s).execQ
      ensures forall o | o in s.made :: o in old(s).made || o == obj
      ensures |s.threads| == |from.threads|
      ensures var reply := Respond(task, outcome, obj, old(s).execQ[task.obj]);
              s.threads[i] == old(s).threads[i].(
                run := None, call := if reply.None? then NoCall else Posting(task.resp, reply.value))
      ensures FuelLeft() < old(FuelLeft())
    {
      ghost var a := Return(i, outcome, obj);
      ReturnEffect(s, i, task, outcome, obj);
      assert a.i < |s.threads| && FreshStep(s, a) && Brings(a) == {obj};
      hide Kept, Ran, Fuel, FuelLeft, Enabled, FreshStep, NextThread, NextQueue, Respond, Touched, FrontOf, Brings;
      Commit(a, from, own);
    }

    /** The end of the user function and the making of its response, and their step. */
    method ReturnNow(ghost i: ThreadId, task: Task, outcome: Outcome, ghost from: State, ghost own: seq<Step>)
      returns (reply: Option<Task>, ghost obj: ObjectId)
      requires Along(from, i, own)
      requires s.threads[i].run == Some(task) && Enabled(s, Return(i, outcome, nextObj))
      modifies this`s, this`nextObj
      ensures Along(from, i, own + [Return(i, outcome, obj)])
      ensures reply == Respond(task, outcome, obj, old(execQ)[task.obj]) && obj < nextObj
      ensures s.threads[i] == old(s).threads[i].(
                run := None, call := if reply.None? then NoCall else Posting(task.resp, reply.value))
      ensures FuelLeft() < old(FuelLeft())
    {
      hide Kept, Ran, Fuel;
      obj := nextObj;
      reply := MakeReply(task, outcome);
      CommitReturn(i, task, outcome, obj, from, own);
    }

    /** User code submits what it likes, here a task of its choosing to a queue of its choosing. */
    method SubmitSomething(ghost i: ThreadId, ghost task: Task, ghost from: State, ghost own: seq<Step>)
      returns (ghost c: UserCall)
      requires Along(from, i, own) && 0 < budget
      requires s.threads[i].run == Some(task) && s.threads[i].call.NoCall?
      modifies this, queues
      ensures ran(i) == old(ran(i))
      ensures Along(from, i, own + EnqueueSteps(i, Submit(i, c.q, c.task), c.n, c.outs))
      ensures NotifyAttempts(cfg.pipeBuf, c.n, c.outs)
      ensures s.threads[i] == old(s).threads[i].(armed := s.threads[i].armed)
      ensures FuelLeft() < old(FuelLeft())
    {
      hide Kept, Ran, Fuel, NotifyAttempts, EnqueueSteps, SubmitCost;
      var q, t := ChooseTask(i);
      SpendBudget(s, budget);
      budget := budget - 1;
      var n, outs := EnqueueGTask(i, q, t, Submit(i, q, t), from, own);
      c := UserCall(q, t, n, outs);
    }

    /** Any queue and any task a caller may submit: a new object, or, if callers may, an old one. */
    method ChooseTask(ghost i: ThreadId) returns (q: QueueId, task: Task)
      requires Valid() && i < |s.threads| && s.threads[i].run.Some? && s.threads[i].call.NoCall?
      modifies this`nextObj
      ensures Valid() && q < |queues| && task.obj < nextObj
      ensures Enabled(s, Submit(i, q, task)) && (once ==> FreshStep(s, Submit(i, q, task)))
    {
      ThreadIsOk(i);
      q, task := *, *;
      if q >= |queues| {
        q := 0;
      }
      if task.resp >= |queues| {
        task := task.(resp := q);
      }
      if once || task.obj >= nextObj {
        task := task.(obj := nextObj);
        nextObj := nextObj + 1;
      }
    }

    /** The user function of a task: it submits any number of tasks to any queues, at most the
        budget, and then ends as it likes. That it was called, and how it ended, is on record. */
    method UserFunction(ghost i: ThreadId, task: Task, ghost from: State, ghost own: seq<Step>)
      returns (outcome: Outcome, ghost calls: seq<UserCall>)
      requires Along(from, i, own)
      requires s.threads[i].run == Some(task) && s.threads[i].call.NoCall?
      modifies this, queues
      ensures ran(i) == old(ran(i)) + [FunctionRun(task, outcome)]
      ensures Along(from, i, own + CallSteps(i, calls))
      ensures forall c | c in calls :: NotifyAttempts(cfg.pipeBuf, c.n, c.outs)
      ensures s.threads[i] == old(s).threads[i].(armed := s.threads[i].armed)
      ensures FuelLeft() <= old(FuelLeft())
    {
      hide Kept, Ran, Fuel, NotifyAttempts, EnqueueSteps, CallSteps;
      calls := [];
      NoCalls(i, own);
      var more: bool := *;
      while more
        invariant ran(i) == old(ran(i))
        invariant Along(from, i, own + CallSteps(i, calls))
        invariant forall c | c in calls :: NotifyAttempts(cfg.pipeBuf, c.n, c.outs)
        invariant s.threads[i] == old(s).threads[i].(armed := s.threads[i].armed)
        invariant FuelLeft() <= old(FuelLeft())
        decreases FuelLeft()
      {
        FuelNonNegative();
        Yield(i, from, own + CallSteps(i, calls));
        if budget == 0 {
          break;
        }
        ghost var c := SubmitSomething(i, task, from, own + CallSteps(i, calls));
        CallStepsAppend(i, own, calls, c);
        calls := calls + [c];
        more := *;
      }
      outcome := *;
      ran := Recorded(ran, i, FunctionRun(task, outcome));
    }

    /** The enqueueing of a response, after a point where others may run. */
    method PostReply(ghost i: ThreadId, q: QueueId, reply: Task, ghost from: State, ghost own: seq<Step>)
      returns (ghost n: nat, ghost outs: seq<WriteOutcome>)
      requires Along(from, i, own) && s.threads[i].call == Posting(q, reply)
      modifies this, queues
      ensures ran(i) == old(ran(i))
      ensures NotifyAttempts(cfg.pipeBuf, n, outs)
      ensures Along(from, i, own + EnqueueSteps(i, Post(i), n, outs))
      ensures AtCall(old(s).threads[i], s.threads[i], NoCall)
      ensures FuelLeft() < old(FuelLeft())
    {
      hide Kept, Ran, Fuel, NotifyAttempts, EnqueueSteps;
      Yield(i, from, own);
      PostEnabled(i);
      n, outs := EnqueueGTask(i, q, reply, Post(i), from, own);
    }

    /** DeferredTask::Execute. The user function does and ends as it likes; its response, if there
        is one, is enqueued on the reply queue. The steps are those of the user function, one
        return, and the steps of that call. */
    method Execute(ghost i: ThreadId, task: Task, ghost from: State, ghost own: seq<Step>)
      returns (ghost x: Execution)
      requires Along(from, i, own)
      requires s.threads[i].run == Some(task) && s.threads[i].call.NoCall?
      modifies this, queues
      ensures ran(i) == old(ran(i)) + [FunctionRun(task, x.outcome)]
      ensures Along(from, i, own + ExecuteSteps(i, task, x))
      ensures forall c | c in x.calls :: NotifyAttempts(cfg.pipeBuf, c.n, c.outs)
      ensures Replies(task, x.outcome) ==> NotifyAttempts(cfg.pipeBuf, x.n, x.outs)
      ensures s.threads[i] == old(s).threads[i].(armed := s.threads[i].armed, run := None)
      ensures FuelLeft() < old(FuelLeft())
    {
      hide Kept, Ran, Fuel, NotifyAttempts, EnqueueSteps, CallSteps, ExecuteSteps;
      var outcome, calls := UserFunction(i, task, from, own);
      Yield(i, from, own + CallSteps(i, calls));
      ReturnEnabled(i, outcome);
      var reply, obj := ReturnNow(i, task, outcome, from, own + CallSteps(i, calls));
      x := Execution(calls, outcome, obj, 0, []);
      if reply.Some? {
        var n, outs := PostReply(i, task.resp, reply.value, from,
                                 own + CallSteps(i, calls) + [Return(i, outcome, obj)]);
        x := x.(n := n, outs := outs);
      }
      ExecuteStepsShape(i, own, task, x);
    }

    lemma ReturnEnabled(i: ThreadId, outcome: Outcome)
      requires Valid() && i < |s.threads| && s.threads[i].run.Some? && s.threads[i].call.NoCall?
      ensures Enabled(s, Return(i, outcome, nextObj)) && s.threads[i].run.value.obj in execQ
      ensures s.threads[i].run.value.Hooked() ==> s.threads[i].run.value.resp < |queues|
    {
      assert ThreadOk(s, s.threads[i]);
    }

    lemma PostEnabled(i: ThreadId)
      requires Valid() && i < |s.threads| && s.threads[i].call.Posting?
      ensures Enabled(s, Post(i)) && s.threads[i].call.q < |queues|
    {
      assert ThreadOk(s, s.threads[i]);
    }

    // ---- gasync_executor.cc ----

    lemma FuelNonNegative()
      requires Valid()
      ensures 0 <= FuelLeft()
    {
      RankNonNegative(s);
      assert 0 <= budget * SubmitCost(s);
    }

    /** The read at the top of the drain loop and its step: the worker claims the bytes it gets,
        or finds none and leaves. */
    method ReadNow(ghost i: ThreadId, q: QueueId, ghost from: State, ghost own: seq<Step>)
      returns (numBytes: int)
      requires Along(from, i, own) && q < |queues| && Polling(s.threads[i]) && s.threads[i].home == q
      modifies this`s, queues[q]
      ensures -1 <= numBytes <= 4096
      ensures numBytes > 0 ==>
                && Along(from, i, own + [Read(i, numBytes)])
                && s.threads[i] == old(s).threads[i].(credits := numBytes)
      ensures numBytes <= 0 ==>
                && Along(from, i, own + [Leave(i)])
                && s.threads[i] == old(s).threads[i].(inCb := false)
      ensures var pipe := old(queues[q].pipe);
              cfg.reliable && 0 < pipe ==> numBytes == if pipe <= 4096 then pipe else 4096
      ensures FuelLeft() < old(FuelLeft())
    {
      hide Kept, Ran, Fuel;
      numBytes := queues[q].ReadPipe(cfg, READ_SIZE);
      if numBytes > 0 {
        Commit(Read(i, numBytes), from, own);
      } else {
        Commit(Leave(i), from, own);
      }
      ViewsAgree(q);
    }

    /** read(fd, msg, 4096), after a point where others may run. */
    method ReadBytes(ghost i: ThreadId, q: QueueId, ghost from: State, ghost own: seq<Step>)
      returns (numBytes: int)
      requires Along(from, i, own) && q < |queues| && Polling(s.threads[i]) && s.threads[i].home == q
      modifies this, queues
      ensures ran(i) == old(ran(i))
      ensures -1 <= numBytes <= 4096 && i < |s.threads|
      ensures var th := old(s).threads[i].(armed := s.threads[i].armed);
              if numBytes > 0 then
                Along(from, i, own + [Read(i, numBytes)]) && s.threads[i] == th.(credits := numBytes)
              else
                Along(from, i, own + [Leave(i)]) && s.threads[i] == th.(inCb := false)
      ensures FuelLeft() < old(FuelLeft())
    {
      hide Kept, Ran, Fuel;
      Yield(i, from, own);
      numBytes := ReadNow(i, q, from, own);
    }

    lemma SpentMeans(own: seq<Step>, runs: seq<FunctionRun>)
      requires Spent(own, runs, 0)
      ensures Flat(own, RETURNED) == Outcomes(runs)
      ensures forall a | a in own && a.Read? :: 1 <= a.k <= 4096
    {
    }

    /** The body of the inner loop: dequeue a task and execute it. The task is used before it is
        tested for null; it never is. */
    method RunTask(ghost i: ThreadId, q: QueueId, ghost from: State, ghost before: seq<Step>,
                   ghost own: seq<Step>, ghost runs: seq<FunctionRun>, ghost credits: int)
      returns (ghost more: seq<Step>, ghost run: FunctionRun)
      requires Along(from, i, before + own) && Spent(own, runs, credits)
      requires q < |queues| && Draining(s.threads[i]) && s.threads[i].home == q
      modifies this, queues
      ensures ran(i) == old(ran(i)) + [run]
      ensures Along(from, i, before + more) && Spent(more, runs + [run], credits - 1) && more != []
      ensures var th := old(s).threads[i];
              s.threads[i] == th.(armed := s.threads[i].armed, credits := th.credits - 1)
      ensures FuelLeft() < old(FuelLeft())
    {
      hide Valid, Ran, Fuel, Spent, ExecuteSteps, ResponseWork, NotifyAttempts;
      var task := DequeueGTask(i, q, from, before + own);
      var used := task.value;
      if task.Some? {
        ghost var x := Execute(i, used, from, before + own + [Dequeue(i)]);
        TaskTrace(before, own, runs, i, used, x, credits);
        more := own + [Dequeue(i)] + ExecuteSteps(i, used, x);
        run := FunctionRun(used, x.outcome);
      }
    }

    /** taskq_cb: drain the queue, one task per byte, until the pipe is found empty. `runs` are the
        user functions it called: one for each byte, those that returned, in order. */
    method TaskqCb(ghost i: ThreadId, q: QueueId, ghost from: State, ghost before: seq<Step>)
      returns (ghost own: seq<Step>, ghost runs: seq<FunctionRun>)
      requires Along(from, i, before) && q < |queues| && Polling(s.threads[i]) && s.threads[i].home == q
      modifies this, queues
      ensures Along(from, i, before + own)
      ensures Spent(own, runs, 0) && own != [] && own[|own| - 1] == Leave(i)
      ensures ran(i) == old(ran(i)) + runs && Flat(own, RETURNED) == Outcomes(runs)
      ensures forall a | a in own && a.Read? :: 1 <= a.k <= 4096
      ensures s.threads[i] == old(s).threads[i].(armed := s.threads[i].armed, inCb := false)
    {
      hide Valid, Ran, Fuel, Spent, Flat, Outcomes, ExecuteSteps, Replies, ResponseWork, NotifyAttempts;
      own, runs := [], [];
      NothingSpent();
      Regroup(before, own, []);
      var numBytes: int;
      while true
        invariant Along(from, i, before + own) && Spent(own, runs, 0)
        invariant ran(i) == old(ran(i)) + runs
        invariant s.threads[i] == old(s).threads[i].(armed := s.threads[i].armed)
        decreases FuelLeft()
      {
        FuelNonNegative();
        numBytes := ReadBytes(i, q, from, before + own);
        ReadTrace(before, own, runs, i, numBytes);
        own := own + [if numBytes > 0 then Read(i, numBytes) else Leave(i)];
        if numBytes == -1 {
          SpentMeans(own, runs);
          return;
        }
        ghost var fuel := FuelLeft();
        var numTasks: int := 0;
        while numTasks < numBytes
          invariant 0 <= numTasks && (numBytes > 0 ==> numTasks <= numBytes)
          invariant Along(from, i, before + own) && own != [] && ran(i) == old(ran(i)) + runs
          invariant if numBytes > 0 then Spent(own, runs, numBytes - numTasks)
                    else Spent(own, runs, 0) && own[|own| - 1] == Leave(i)
          invariant s.threads[i] == old(s).threads[i].(
                      armed := s.threads[i].armed,
                      inCb := numBytes > 0,
                      credits := if numBytes > 0 then numBytes - numTasks else 0)
          invariant FuelLeft() <= fuel
        {
          ghost var more, run := RunTask(i, q, from, before, own, runs, numBytes - numTasks);
          Regroup(old(ran(i)), runs, [run]);
          own, runs := more, runs + [run];
          numTasks := numTasks + 1;
        }
        if !(numBytes > 0) {
          SpentMeans(own, runs);
          break;
        }
      }
    }
  }
}
