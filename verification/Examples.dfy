/** Concrete runs: one queue and the one thread that serves it, on reliable pipes. */
module Examples {
  import opened Tasks
  import opened Protocol
  import opened Accounting
  import opened SetOnce
  import opened Progress
  import opened Refinement
  import opened Stranding

  // ---- What such a system looks like, and how its steps change it ----

  const CONFIG := Config(AsCoded, true, 4096)

  /** Its tasks, the bytes in its pipe, its limit, its thread, and a bound on its objects. */
  datatype Look = Look(tasks: seq<Task>, pipe: nat, max: nat, th: Thread, made: ObjectId) {
    function At(c: Call): Look { this.(th := th.(call := c)) }

    function Submitted(t: Task): Look {
      At(Notifying(0, 1, RETRIES)).(tasks := tasks + [t], made := if t.obj < made then made else t.obj + 1)
    }

    function Ended(reply: Option<Task>): Look {
      this.(th := POLLING.(call := if reply.Some? then Posting(0, reply.value) else NoCall), made := made + 1)
    }
  }

  const IDLE := Thread(0, true, false, 0, None, NoCall)

  /** In taskq_cb, with nothing in hand. */
  const POLLING := Thread(0, true, true, 0, None, NoCall)

  function Executing(t: Task): Thread { POLLING.(run := Some(t)) }

  const START := Look([], 0, INITIAL_MAX, IDLE, 0)

  predicate Looks(s: State, capacity: nat, v: Look) {
    && |s.queues| == 1 && |s.threads| == 1 && s.cfg == CONFIG
    && s.threads[0] == v.th && v.th.home == 0
    && s.queues[0].tasks == v.tasks && s.queues[0].pipe == v.pipe && s.queues[0].capacity == capacity
    && s.queues[0].numOutstanding == 0 && s.queues[0].maxOutstanding == v.max && INITIAL_MAX <= v.max
    && (forall o | o in s.made :: o < v.made)
    && (v.th.run.Some? ==> v.th.run.value.obj in s.execQ)
    && forall o | o in s.execQ :: s.execQ[o] == 0
  }

  /** A run of it, from a start state s; with `once`, a run of callers that submit each object at
      most once. */
  ghost predicate Reaches(once: bool, s: State, run: seq<Step>, capacity: nat, v: Look) {
    && Init(s) && Looks(s, capacity, START)
    && CanRun(s, run) && (once ==> FreshRun(s, run)) && Looks(After(s, run), capacity, v)
  }

  lemma Start(capacity: nat) returns (s: State)
    ensures Reaches(true, s, [], capacity, START)
  {
    s := State(CONFIG, [Queue([], 0, 0, INITIAL_MAX, 0, 0, capacity)], [IDLE], map[], {}, false, false, []);
  }

  /** Step a leads from look v to look v'. */
  ghost predicate Moves(s: State, a: Step, capacity: nat, v': Look) {
    Enabled(s, a) && Looks(Next(s, a), capacity, v')
  }

  /** `more` is run and one step, a. */
  ghost predicate OneMore(run: seq<Step>, more: seq<Step>, a: Step) {
    && Submits(more) == Submits(run) + (if a.Submit? then 1 else 0)
    && more != [] && more[0] == if run == [] then a else run[0]
  }

  lemma Extend(once: bool, s: State, run: seq<Step>, a: Step, capacity: nat, v: Look, v': Look)
    returns (more: seq<Step>)
    requires Reaches(once, s, run, capacity, v) && Moves(After(s, run), a, capacity, v')
    requires once ==> FreshStep(After(s, run), a)
    ensures Reaches(once, s, more, capacity, v') && After(s, more) == Next(After(s, run), a)
    ensures OneMore(run, more, a)
  {
    more := run + [a];
    assert [a][1..] == [] && Submits([]) == 0;
    SubmitsConcat(run, [a]);
    hide Looks, Init, Enabled, Next, FreshStep;
    RunAppend(s, run, a);
    if once {
      var end := After(s, run);
      assert FreshRun(Next(end, a), []);
      assert FreshRun(end, [a]);
      FreshConcat(s, run, [a]);
    }
  }

  // Each step such a system takes, at the end of a run.

  lemma Submitted(once: bool, s: State, run: seq<Step>, capacity: nat, v: Look, t: Task)
    returns (more: seq<Step>)
    requires Reaches(once, s, run, capacity, v) && v.th.call.NoCall? && (v.th.inCb ==> v.th.run.Some?)
    requires t.resp == 0 && (once ==> v.made <= t.obj)
    ensures Reaches(once, s, more, capacity, v.Submitted(t))
    ensures OneMore(run, more, Submit(0, 0, t))
    ensures After(s, more).execQ == After(s, run).execQ
  {
    assert Moves(After(s, run), Submit(0, 0, t), capacity, v.Submitted(t));
    more := Extend(once, s, run, Submit(0, 0, t), capacity, v, v.Submitted(t));
  }

  lemma ByteSent(once: bool, s: State, run: seq<Step>, capacity: nat, v: Look)
    returns (more: seq<Step>)
    requires Reaches(once, s, run, capacity, v) && v.th.call == Notifying(0, 1, RETRIES) && v.pipe < capacity
    ensures Reaches(once, s, more, capacity, v.At(NoCall).(pipe := v.pipe + 1))
    ensures OneMore(run, more, Write(0, Wrote(1)))
    ensures After(s, more).execQ == After(s, run).execQ
  {
    assert Moves(After(s, run), Write(0, Wrote(1)), capacity, v.At(NoCall).(pipe := v.pipe + 1));
    more := Extend(once, s, run, Write(0, Wrote(1)), capacity, v, v.At(NoCall).(pipe := v.pipe + 1));
  }

  lemma PipeFull(once: bool, s: State, run: seq<Step>, capacity: nat, v: Look, retries: nat)
    returns (more: seq<Step>)
    requires Reaches(once, s, run, capacity, v) && v.pipe == capacity
    requires v.th.call == Notifying(0, 1, retries) && 0 < retries
    ensures Reaches(once, s, more, capacity, v.At(Attempts(0, 1, retries - 1)))
    ensures OneMore(run, more, Write(0, Again))
  {
    assert Moves(After(s, run), Write(0, Again), capacity, v.At(Attempts(0, 1, retries - 1)));
    more := Extend(once, s, run, Write(0, Again), capacity, v, v.At(Attempts(0, 1, retries - 1)));
  }

  lemma Credited(once: bool, s: State, run: seq<Step>, capacity: nat, v: Look)
    returns (more: seq<Step>)
    requires Reaches(once, s, run, capacity, v) && v.th.call == Crediting(0, 1)
    ensures Reaches(once, s, more, capacity, v.At(NoCall).(max := v.max + 1))
    ensures OneMore(run, more, Credit(0))
  {
    assert Moves(After(s, run), Credit(0), capacity, v.At(NoCall).(max := v.max + 1));
    more := Extend(once, s, run, Credit(0), capacity, v, v.At(NoCall).(max := v.max + 1));
  }

  lemma Woken(once: bool, s: State, run: seq<Step>, capacity: nat, v: Look)
    returns (more: seq<Step>)
    requires Reaches(once, s, run, capacity, v) && v.th == IDLE && 0 < v.pipe
    ensures Reaches(once, s, more, capacity, v.(th := POLLING))
    ensures OneMore(run, more, Wake(0))
    ensures After(s, more).execQ == After(s, run).execQ
  {
    assert Moves(After(s, run), Wake(0), capacity, v.(th := POLLING));
    more := Extend(once, s, run, Wake(0), capacity, v, v.(th := POLLING));
  }

  lemma ByteRead(once: bool, s: State, run: seq<Step>, capacity: nat, v: Look)
    returns (more: seq<Step>)
    requires Reaches(once, s, run, capacity, v) && v.th == POLLING && v.pipe == 1
    ensures Reaches(once, s, more, capacity, v.(pipe := 0, th := POLLING.(credits := 1)))
    ensures OneMore(run, more, Read(0, 1))
    ensures After(s, more).execQ == After(s, run).execQ
  {
    assert Moves(After(s, run), Read(0, 1), capacity, v.(pipe := 0, th := POLLING.(credits := 1)));
    more := Extend(once, s, run, Read(0, 1), capacity, v, v.(pipe := 0, th := POLLING.(credits := 1)));
  }

  lemma TaskDequeued(once: bool, s: State, run: seq<Step>, capacity: nat, v: Look)
    returns (more: seq<Step>)
    requires Reaches(once, s, run, capacity, v) && v.th == POLLING.(credits := 1) && v.tasks != []
    ensures Reaches(once, s, more, capacity, v.(tasks := v.tasks[1..], th := Executing(v.tasks[0])))
    ensures OneMore(run, more, Dequeue(0))
    ensures v.tasks[0].obj in After(s, run).execQ ==> After(s, more).setTwice
  {
    assert Moves(After(s, run), Dequeue(0), capacity, v.(tasks := v.tasks[1..], th := Executing(v.tasks[0])));
    assert v.tasks[0].obj in After(s, run).execQ ==> Next(After(s, run), Dequeue(0)).setTwice;
    hide Looks, Next, Enabled, After, CanRun, Init;
    more := Extend(once, s, run, Dequeue(0), capacity, v, v.(tasks := v.tasks[1..], th := Executing(v.tasks[0])));
  }

  /** A function ends; what it leaves its thread to post is its response. */
  lemma FunctionEnded(once: bool, s: State, run: seq<Step>, capacity: nat, v: Look, t: Task, o: Outcome)
    returns (more: seq<Step>)
    requires Reaches(once, s, run, capacity, v) && v.th == Executing(t) && t.resp == 0
    ensures Reaches(once, s, more, capacity, v.Ended(Respond(t, o, v.made, 0)))
    ensures OneMore(run, more, Return(0, o, v.made))
    ensures t.obj in After(s, more).execQ
    ensures After(s, more).log == After(s, run).log + [Finished(0, t, o, Respond(t, o, v.made, 0))]
  {
    assert Moves(After(s, run), Return(0, o, v.made), capacity, v.Ended(Respond(t, o, v.made, 0)));
    more := Extend(once, s, run, Return(0, o, v.made), capacity, v, v.Ended(Respond(t, o, v.made, 0)));
  }

  lemma Posted(once: bool, s: State, run: seq<Step>, capacity: nat, v: Look, t: Task)
    returns (more: seq<Step>)
    requires Reaches(once, s, run, capacity, v) && v.th == POLLING.(call := Posting(0, t))
    ensures Reaches(once, s, more, capacity, v.At(Notifying(0, 1, RETRIES)).(tasks := v.tasks + [t]))
    ensures OneMore(run, more, Post(0))
  {
    assert Moves(After(s, run), Post(0), capacity, v.At(Notifying(0, 1, RETRIES)).(tasks := v.tasks + [t]));
    more := Extend(once, s, run, Post(0), capacity, v, v.At(Notifying(0, 1, RETRIES)).(tasks := v.tasks + [t]));
  }

  // ---- Stretches of such runs ----

  /** `more` goes on from run, with n more submissions. */
  ghost predicate GoesOn(run: seq<Step>, more: seq<Step>, n: nat) {
    Submits(more) == Submits(run) + n && more != [] && (run != [] ==> more[0] == run[0])
  }

  /** A task is submitted and its byte sent. */
  lemma SubmitAndSend(once: bool, s: State, run: seq<Step>, capacity: nat, v: Look, t: Task)
    returns (more: seq<Step>)
    requires Reaches(once, s, run, capacity, v) && v.th.call.NoCall? && (v.th.inCb ==> v.th.run.Some?)
    requires v.pipe < capacity && t.resp == 0 && (once ==> v.made <= t.obj)
    ensures Reaches(once, s, more, capacity, v.Submitted(t).(pipe := v.pipe + 1, th := v.th))
    ensures After(s, more).execQ == After(s, run).execQ
    ensures GoesOn(run, more, 1) && (run == [] ==> more[0] == Submit(0, 0, t))
  {
    hide Reaches, After, Submits;
    more := Submitted(once, s, run, capacity, v, t);
    more := ByteSent(once, s, more, capacity, v.Submitted(t));
  }

  /** The one byte in the pipe is read and the first task dequeued for it. */
  lemma ReadAndDequeue(once: bool, s: State, run: seq<Step>, capacity: nat, v: Look) returns (more: seq<Step>)
    requires Reaches(once, s, run, capacity, v) && v.th == POLLING && v.pipe == 1 && v.tasks != []
    ensures Reaches(once, s, more, capacity, v.(tasks := v.tasks[1..], pipe := 0, th := Executing(v.tasks[0])))
    ensures v.tasks[0].obj in After(s, run).execQ ==> After(s, more).setTwice
    ensures GoesOn(run, more, 0)
  {
    hide Reaches, After, Submits;
    more := ByteRead(once, s, run, capacity, v);
    more := TaskDequeued(once, s, more, capacity, v.(pipe := 0, th := POLLING.(credits := 1)));
  }

  /** The first task is submitted, and dequeued by the worker it wakes up. */
  lemma FirstDequeued(once: bool, s: State, run: seq<Step>, t: Task) returns (more: seq<Step>)
    requires Reaches(once, s, run, 1, START) && t.obj == 0 && t.resp == 0
    ensures Reaches(once, s, more, 1, Look([], 0, INITIAL_MAX, Executing(t), 1))
    ensures GoesOn(run, more, 1) && (run == [] ==> more[0] == Submit(0, 0, t))
  {
    hide Reaches, After, Submits;
    assert START.tasks + [t] == [t] && [t][1..] == [];
    more := SubmitAndSend(once, s, run, 1, START, t);
    more := Woken(once, s, more, 1, Look([t], 1, INITIAL_MAX, IDLE, 1));
    more := ReadAndDequeue(once, s, more, 1, Look([t], 1, INITIAL_MAX, POLLING, 1));
  }

  // ---- The set-once assertion can fail ----

  const JOB := Task(0, Function(0), None, None, 0)

  /** A task that submits itself again while it runs fails the assertion. */
  lemma TaskThatResubmitsItself() returns (s: State, run: seq<Step>)
    ensures Init(s) && CanRun(s, run) && After(s, run).setTwice
  {
    var waiting := Look([JOB], 1, INITIAL_MAX, IDLE, 1);
    s := Start(1);
    run := FirstDequeued(false, s, [], JOB);
    run := SubmitAndSend(false, s, run, 1, Look([], 0, INITIAL_MAX, Executing(JOB), 1), JOB);
    run := FunctionEnded(false, s, run, 1, waiting.(th := Executing(JOB)), JOB, Returned(0));
    run := ReadAndDequeue(false, s, run, 1, waiting.(th := POLLING, made := 2));
  }

  // ---- A failing callback is answered by nothing ----

  const BOTH_HOOKS := Task(0, Function(0), Some(0), Some(0), 0)

  const ITS_CALLBACK := Task(1, Callback(0, 7), None, None, 0)

  /** A task with a response runs, and its response is posted and its byte sent. */
  lemma RunAndReply(s: State, run: seq<Step>, v: Look, t: Task, o: Outcome, r: Task) returns (more: seq<Step>)
    requires Reaches(true, s, run, 1, v) && v.th == Executing(t) && t.resp == 0 && v.pipe == 0
    requires Respond(t, o, v.made, 0) == Some(r)
    ensures Reaches(true, s, more, 1, v.(tasks := v.tasks + [r], pipe := 1, th := POLLING, made := v.made + 1))
    ensures GoesOn(run, more, 0)
  {
    hide Reaches, After, Submits, Respond;
    var w := v.Ended(Some(r));
    more := FunctionEnded(true, s, run, 1, v, t, o);
    more := Posted(true, s, more, 1, w, r);
    more := ByteSent(true, s, more, 1, w.At(Notifying(0, 1, RETRIES)).(tasks := w.tasks + [r]));
  }

  /** A task with both hooks is submitted, returns, and its callback is about to run. */
  lemma CallbackDequeued(s: State, run: seq<Step>) returns (more: seq<Step>)
    requires Reaches(true, s, run, 1, START)
    ensures Reaches(true, s, more, 1, Look([], 0, INITIAL_MAX, Executing(ITS_CALLBACK), 2))
    ensures GoesOn(run, more, 1) && (run == [] ==> more[0] == Submit(0, 0, BOTH_HOOKS))
  {
    assert Respond(BOTH_HOOKS, Returned(7), 1, 0) == Some(ITS_CALLBACK);
    hide Reaches, After, Submits, Respond;
    more := FirstDequeued(true, s, run, BOTH_HOOKS);
    more := RunAndReply(s, more, Look([], 0, INITIAL_MAX, Executing(BOTH_HOOKS), 1),
                        BOTH_HOOKS, Returned(7), ITS_CALLBACK);
    more := ReadAndDequeue(true, s, more, 1, Look([ITS_CALLBACK], 1, INITIAL_MAX, POLLING, 2));
  }

  lemma NothingLeft(s: State, capacity: nat, v: Look)
    requires Looks(s, capacity, v) && v.tasks == [] && v.th == POLLING
    ensures AllQuiet(s) && forall q | q in s.queues :: q.tasks == []
  {
  }

  /** A run in which one task is submitted, with both hooks; it returns, its callback throws, and
      that is the end of it: nothing is left to run, and no errback was ever made. */
  lemma CallbackFailureIsSwallowed() returns (s: State, run: seq<Step>)
    ensures Init(s) && FreshRun(s, run) && CanRun(s, run)
    ensures Submits(run) == 1 && run != [] && run[0] == Submit(0, 0, BOTH_HOOKS)
    ensures var end := After(s, run);
            && AllQuiet(end) && (forall q | q in end.queues :: q.tasks == [])
            && end.log != [] && end.log[|end.log| - 1] == Finished(0, ITS_CALLBACK, Threw(1), None)
  {
    assert Respond(ITS_CALLBACK, Threw(1), 2, 0) == None && Submits([]) == 0;
    hide Looks, Init, Next, Enabled, CanRun, FreshRun, After, Submits, AllQuiet, Respond;
    s := Start(1);
    run := CallbackDequeued(s, []);
    run := FunctionEnded(true, s, run, 1, Look([], 0, INITIAL_MAX, Executing(ITS_CALLBACK), 2), ITS_CALLBACK, Threw(1));
    NothingLeft(After(s, run), 1, Look([], 0, INITIAL_MAX, POLLING, 3));
  }

  // ---- One task more than the pipe has room for bytes ----

  function Job(k: nat): Task { Task(k, Function(0), None, None, 0) }

  function Jobs(k: nat): seq<Task> { seq(k, j requires 0 <= j < k => Job(j)) }

  lemma {:induction false} Fill(s: State, capacity: nat, k: nat) returns (run: seq<Step>)
    requires Reaches(true, s, [], capacity, START) && k <= capacity
    ensures Reaches(true, s, run, capacity, Look(Jobs(k), k, INITIAL_MAX, IDLE, k)) && Submits(run) == k
  {
    if k == 0 {
      run := [];
      assert Jobs(0) == [];
    } else {
      run := Fill(s, capacity, k - 1);
      assert Jobs(k) == Jobs(k - 1) + [Job(k - 1)];
      hide Reaches, After, Submits;
      run := SubmitAndSend(true, s, run, capacity, Look(Jobs(k - 1), k - 1, INITIAL_MAX, IDLE, k - 1), Job(k - 1));
    }
  }

  /** With the pipe full, three attempts fail and the notification is given up. */
  lemma GivesUp(s: State, run: seq<Step>, capacity: nat, v: Look) returns (more: seq<Step>)
    requires Reaches(true, s, run, capacity, v) && v.pipe == capacity && v.th == IDLE.(call := Notifying(0, 1, 3))
    ensures Reaches(true, s, more, capacity, v.(max := v.max + 1, th := IDLE)) && Submits(more) == Submits(run)
  {
    hide Reaches, After, Submits;
    more := PipeFull(true, s, run, capacity, v, 3);
    more := PipeFull(true, s, more, capacity, v.At(Notifying(0, 1, 2)), 2);
    more := PipeFull(true, s, more, capacity, v.At(Notifying(0, 1, 1)), 1);
    more := Credited(true, s, more, capacity, v.At(Crediting(0, 1)));
  }

  /** With the pipe full, one more task has its notification given up. */
  lemma OneTooMany(s: State, run: seq<Step>, capacity: nat) returns (more: seq<Step>)
    requires Reaches(true, s, run, capacity, Look(Jobs(capacity), capacity, INITIAL_MAX, IDLE, capacity))
    ensures Reaches(true, s, more, capacity, Look(Jobs(capacity + 1), capacity, INITIAL_MAX + 1, IDLE, capacity + 1))
    ensures Submits(more) == Submits(run) + 1
  {
    var v, t := Look(Jobs(capacity), capacity, INITIAL_MAX, IDLE, capacity), Job(capacity);
    assert Jobs(capacity + 1) == Jobs(capacity) + [t];
    hide Reaches, After, Submits;
    more := Submitted(true, s, run, capacity, v, t);
    more := GivesUp(s, more, capacity, v.Submitted(t));
  }

  lemma {:induction false} QuietRunIsFresh(s: State, run: seq<Step>)
    requires CanRun(s, run) && Submits(run) == 0
    ensures FreshRun(s, run)
    decreases |run|
  {
    if run != [] {
      QuietRunIsFresh(Next(s, run[0]), run[1..]);
    }
  }

  lemma {:induction false} SubmitsConcat(run: seq<Step>, more: seq<Step>)
    ensures Submits(run + more) == Submits(run) + Submits(more)
  {
    if run == [] {
      assert run + more == more;
    } else {
      assert (run + more)[1..] == run[1..] + more;
      SubmitsConcat(run[1..], more);
    }
  }

  lemma {:induction false} StaysArmed(s: State, run: seq<Step>, i: ThreadId)
    requires CanRun(s, run) && i < |s.threads| && s.threads[i].armed && forall a | a in run :: !a.Shutdown?
    ensures After(s, run).threads[i].armed && After(s, run).threads[i].home == s.threads[i].home
    decreases |run|
  {
    if run != [] {
      assert run[0] in run;
      StaysArmed(Next(s, run[0]), run[1..], i);
    }
  }

  /** Whatever room the pipe has for bytes, submitting one task more can strand one, with reliable
      pipes and each object submitted once: the system stops, the queue is served, and a task is
      left waiting in it. */
  lemma OverfullQueueStrands(capacity: nat) returns (s: State, run: seq<Step>)
    ensures Init(s) && s.cfg.policy.AsCoded? && s.cfg.reliable && |s.queues| == 1 && s.queues[0].capacity == capacity
    ensures FreshRun(s, run) && CanRun(s, run) && Submits(run) == capacity + 1
    ensures var end := After(s, run);
            Terminal(end) && HasWorker(end, 0) && end.queues[0].tasks != [] && 0 < GivenUp(end, 0)
  {
    s := Start(capacity);
    var first := Fill(s, capacity, capacity);
    first := OneTooMany(s, first, capacity);
    var mid := After(s, first);
    InitInv(s);
    RunKeepsInv(s, first);
    assert QueueInv(mid, 0);
    assert GivenUp(mid, 0) == 1 && mid.threads[0].armed && mid.threads[0].home == 0;
    var rest := Settles(mid);
    StrandedForever(mid, rest, 0);
    GivenUpGrows(mid, rest, 0);
    StaysArmed(mid, rest, 0);
    QuietRunIsFresh(mid, rest);
    RunConcat(s, first, rest);
    FreshConcat(s, first, rest);
    SubmitsConcat(first, rest);
    run := first + rest;
  }
}
