/** Notifications given up: what the code as written does with them, and what the line its
    comment describes would do. */
module Stranding {
  import opened Sums
  import opened Tasks
  import opened Protocol
  import opened Accounting
  import opened Progress

  // ---- As coded: a notification given up strands a task for good ----

  /** No byte for q is in the pipe or in any thread's hands. */
  ghost predicate Unannounced(s: State, q: QueueId)
    requires q < |s.queues|
  {
    s.queues[q].pipe == 0 && forall th | th in s.threads :: Held(th, q) == 0
  }

  /** When nothing is in flight, the tasks left are as many as the limit has grown, which are as
      many as the notifications given up. */
  lemma StrandedCount(s: State, q: QueueId)
    requires Inv(s) && s.cfg.policy.AsCoded? && q < |s.queues| && Unannounced(s, q)
    ensures |s.queues[q].tasks| == s.queues[q].maxOutstanding - INITIAL_MAX == GivenUp(s, q)
  {
    assert QueueInv(s, q);
    SumZero(s.threads, HeldFor(q));
  }

  lemma GivenUpMove(s: State, a: Step, q: QueueId)
    requires Enabled(s, a)
    ensures Sum(NextEvent(s, a), GivenUpOf(q)) ==
              if a.Credit? && s.threads[a.i].call.q == q then s.threads[a.i].call.short else 0
  {
    SumOne(NextEvent(s, a), GivenUpOf(q));
  }

  lemma GivenUpStep(s: State, a: Step, q: QueueId)
    requires Inv(s) && Enabled(s, a) && q < |s.queues|
    ensures GivenUp(Next(s, a), q) ==
              GivenUp(s, q) + if a.Credit? && s.threads[a.i].call.q == q then s.threads[a.i].call.short else 0
    ensures GivenUp(s, q) <= GivenUp(Next(s, a), q)
    ensures a.Credit? && s.threads[a.i].call.q == q ==> GivenUp(s, q) < GivenUp(Next(s, a), q)
  {
    assert ThreadOk(s, s.threads[a.i]);
    assert a.Credit? ==> s.threads[a.i].call.Crediting? && 0 < s.threads[a.i].call.short;
    HistoriesStep(s, a, q);
    GivenUpMove(s, a, q);
    hide *;
  }

  lemma {:induction false} GivenUpGrows(s: State, run: seq<Step>, q: QueueId)
    requires Inv(s) && CanRun(s, run) && q < |s.queues|
    ensures GivenUp(s, q) <= GivenUp(After(s, run), q)
    decreases |run|
  {
    if run != [] {
      GivenUpStep(s, run[0], q);
      StepKeepsInv(s, run[0]);
      GivenUpGrows(Next(s, run[0]), run[1..], q);
    }
  }

  /** From then on, however the system runs, at least that many tasks are waiting in q, and the
      limit that records them never shrinks. */
  lemma StrandedForever(s: State, run: seq<Step>, q: QueueId)
    requires Inv(s) && CanRun(s, run) && s.cfg.policy.AsCoded? && q < |s.queues|
    ensures GivenUp(s, q) <= |After(s, run).queues[q].tasks|
    ensures s.queues[q].maxOutstanding <= After(s, run).queues[q].maxOutstanding
  {
    var end := After(s, run);
    RunKeepsInv(s, run);
    GivenUpGrows(s, run, q);
    assert QueueInv(s, q) && QueueInv(end, q);
    SumNonNegative(end.threads, HeldFor(q));
  }

  /** Which tasks: when the system has stopped, those of a served queue that were enqueued last,
      as many as notifications were given up; all before them were dequeued, in order. */
  lemma LastOnesStrand(s: State, q: QueueId)
    requires Inv(s) && Terminal(s) && s.cfg.policy.AsCoded? && q < |s.queues| && HasWorker(s, q)
    ensures var n := |EnqHistory(s, q)| - GivenUp(s, q);
            && 0 <= n <= |EnqHistory(s, q)|
            && DeqHistory(s, q) == EnqHistory(s, q)[..n] && s.queues[q].tasks == EnqHistory(s, q)[n..]
  {
    NoLostWakeup(s, q);
    assert QueueInv(s, q);
    hide Terminal;
  }

  // ---- When a notification is given up ----

  /** With reliable pipes, a write sends its byte if and only if the pipe is not full. */
  lemma WriteSucceedsIff(s: State, a: Step)
    requires Inv(s) && s.cfg.policy.AsCoded? && s.cfg.reliable && Enabled(s, a) && a.Write?
    ensures var v := s.queues[s.threads[a.i].call.q];
            a.out == Wrote(1) <==> v.pipe < v.capacity
  {
    assert ThreadOk(s, s.threads[a.i]);
  }

  /** And it is not full while the deque is no longer than the pipe has room for bytes. */
  lemma RoomForByte(s: State, a: Step, q: QueueId)
    requires Inv(s) && s.cfg.policy.AsCoded? && s.cfg.reliable && Enabled(s, a) && a.Write?
    requires q == s.threads[a.i].call.q && |s.queues[q].tasks| <= s.queues[q].capacity
    ensures a.out == Wrote(1) && NextThread(s, a).call.NoCall?
  {
    assert ThreadOk(s, s.threads[a.i]) && QueueInv(s, q);
    SumAtLeast(s.threads, a.i, HeldFor(q));
    WriteSucceedsIff(s, a);
  }

  /** At no moment of a run is the deque of q longer than n. */
  ghost predicate NeverLonger(s: State, run: seq<Step>, q: QueueId, n: nat)
    requires CanRun(s, run) && q < |s.queues|
    decreases |run|
  {
    |s.queues[q].tasks| <= n && (run == [] || NeverLonger(Next(s, run[0]), run[1..], q, n))
  }

  /** Nothing given up on q, and nobody about to give up. */
  ghost predicate NoShortfall(s: State, q: QueueId) {
    && GivenUp(s, q) == 0
    && (forall i | 0 <= i < |s.threads| && s.threads[i].call.Crediting? :: s.threads[i].call.q != q)
    && (forall e | e in s.log && e.Sent? && e.q == q :: e.k == 1)
  }

  /** A write that sends its byte ends the call. */
  lemma NobodyCredits(s: State, a: Step, q: QueueId)
    requires Enabled(s, a)
    requires s.threads[a.i].call.Crediting? ==> s.threads[a.i].call.q != q
    requires a.Write? && s.threads[a.i].call.q == q ==> NextThread(s, a).call.NoCall?
    ensures NextThread(s, a).call.Crediting? ==> NextThread(s, a).call.q != q
  {
  }

  lemma NewEventSent(s: State, a: Step, q: QueueId)
    requires Enabled(s, a) && (a.Write? && s.threads[a.i].call.q == q ==> a.out == Wrote(1))
    ensures forall e | e in NextEvent(s, a) && e.Sent? && e.q == q :: e.k == 1
  {
  }

  lemma NoShortfallStep(s: State, a: Step, q: QueueId)
    requires Inv(s) && s.cfg.policy.AsCoded? && s.cfg.reliable && Enabled(s, a) && q < |s.queues|
    requires |s.queues[q].tasks| <= s.queues[q].capacity && NoShortfall(s, q)
    ensures NextThread(s, a).call.Crediting? ==> NextThread(s, a).call.q != q
    ensures forall e | e in NextEvent(s, a) && e.Sent? && e.q == q :: e.k == 1
  {
    if a.Write? && s.threads[a.i].call.q == q {
      RoomForByte(s, a, q);
    }
    NobodyCredits(s, a, q);
    NewEventSent(s, a, q);
    hide *;
  }

  lemma StepKeepsNoShortfall(s: State, a: Step, q: QueueId)
    requires Inv(s) && s.cfg.policy.AsCoded? && s.cfg.reliable && Enabled(s, a) && q < |s.queues|
    requires |s.queues[q].tasks| <= s.queues[q].capacity && NoShortfall(s, q)
    ensures NoShortfall(Next(s, a), q)
  {
    assert a.Credit? ==> s.threads[a.i].call.Crediting?;
    GivenUpStep(s, a, q);
    NoShortfallStep(s, a, q);
    NextParts(s, a);
    hide Inv, GivenUp, Enabled, Next, NextThread, NextEvent, NextQueue;
  }

  lemma {:induction false} RunKeepsNoShortfall(s: State, run: seq<Step>, q: QueueId)
    requires Inv(s) && s.cfg.policy.AsCoded? && s.cfg.reliable && CanRun(s, run) && q < |s.queues|
    requires NeverLonger(s, run, q, s.queues[q].capacity) && NoShortfall(s, q)
    ensures NoShortfall(After(s, run), q)
    decreases |run|
  {
    if run != [] {
      var next := Next(s, run[0]);
      assert next.queues[q].capacity == s.queues[q].capacity;
      StepKeepsInv(s, run[0]);
      StepKeepsNoShortfall(s, run[0], q);
      hide Inv, NoShortfall, Enabled, Next;
      RunKeepsNoShortfall(next, run[1..], q);
    }
  }

  /** A condition callers can check beforehand: with reliable pipes, as long as no more tasks wait
      in q than its pipe has room for bytes, every write for q sends its byte and nothing is given
      up there, whatever all threads do. One more is too many: see OverfullQueueStrands. */
  lemma WithinCapacity(s: State, run: seq<Step>, q: QueueId)
    requires Init(s) && s.cfg.policy.AsCoded? && s.cfg.reliable && CanRun(s, run) && q < |s.queues|
    requires NeverLonger(s, run, q, s.queues[q].capacity)
    ensures GivenUp(After(s, run), q) == 0
    ensures forall e | e in After(s, run).log && e.Sent? && e.q == q :: e.k == 1
  {
    InitInv(s);
    RunKeepsNoShortfall(s, run, q);
  }

  /** A call that has n bytes to send, or gives all of them up, or is over. */
  predicate WholeOrNothing(c: Call, q: QueueId, n: nat) {
    c.NoCall? || (c.Notifying? && c.q == q && c.left == n) || c == Crediting(q, n)
  }

  /** If n bytes are few enough for an atomic write, a thread asked to send them that makes its
      attempts, however they go and whatever others do, sends them all or gives all of them up. */
  lemma {:induction false} ShortfallIsWhole(s: State, run: seq<Step>, i: ThreadId, q: QueueId, n: nat)
    requires CanRun(s, run) && i < |s.threads| && n <= s.cfg.pipeBuf && WholeOrNothing(s.threads[i].call, q, n)
    requires forall a | a in run && a.i == i :: a.Write? || a.Shutdown?
    ensures WholeOrNothing(After(s, run).threads[i].call, q, n)
    decreases |run|
  {
    if run != [] {
      assert run[0] in run;
      ShortfallIsWhole(Next(s, run[0]), run[1..], i, q, n);
    }
  }

  // ---- When a notification is given up, exactly ----

  /** At every write thread i makes in this run, the pipe of q is full. */
  ghost predicate FullAtWrites(s: State, run: seq<Step>, i: ThreadId, q: QueueId)
    requires CanRun(s, run) && q < |s.queues|
    decreases |run|
  {
    run == [] ||
    ((run[0].i == i && run[0].Write? ==> s.queues[q].pipe == s.queues[q].capacity)
     && FullAtWrites(Next(s, run[0]), run[1..], i, q))
  }

  /** The writes thread i makes in a run. */
  ghost function WritesOf(run: seq<Step>, i: ThreadId): nat {
    if run == [] then 0 else (if run[0].i == i && run[0].Write? then 1 else 0) + WritesOf(run[1..], i)
  }

  predicate FailedHard(run: seq<Step>, i: ThreadId) {
    exists a :: a in run && a.i == i && a.Write? && a.out.Failed?
  }

  /** Thread i takes no step but attempts to write, though it may be shut down. */
  predicate OnlyWrites(run: seq<Step>, i: ThreadId) {
    forall a | a in run && a.i == i :: a.Write? || a.Shutdown?
  }

  lemma {:induction false} NoMoreWrites(s: State, run: seq<Step>, i: ThreadId, q: QueueId)
    requires CanRun(s, run) && OnlyWrites(run, i) && i < |s.threads| && q < |s.queues|
    requires !s.threads[i].call.Notifying?
    ensures After(s, run).threads[i].call == s.threads[i].call
    ensures FullAtWrites(s, run, i, q) && WritesOf(run, i) == 0
    decreases |run|
  {
    if run != [] {
      assert run[0] in run;
      NoMoreWrites(Next(s, run[0]), run[1..], i, q);
    }
  }

  /** One attempt on a reliable pipe: a full pipe costs a try, a hard error all that are left, and
      anything else ends the call. */
  lemma AttemptOutcome(s: State, a: Step, q: QueueId, tries: nat)
    requires Inv(s) && s.cfg.policy.AsCoded? && s.cfg.reliable && Enabled(s, a) && a.Write?
    requires s.threads[a.i].call == Notifying(q, 1, tries)
    ensures NextThread(s, a).call ==
              if s.queues[q].pipe < s.queues[q].capacity then NoCall
              else Attempts(q, 1, if a.out.Failed? then 0 else tries - 1)
  {
    assert QueueInv(s, q);
    WriteSucceedsIff(s, a);
  }

  /** On reliable pipes a thread with `tries` attempts left to send its byte, and done with them at
      the end of a run, has given the byte up if and only if the pipe was full at every one of its
      attempts, whatever other threads did in between; and then it has made all of them, unless
      one failed hard. */
  lemma {:induction false} GivesUpIff(s: State, run: seq<Step>, i: ThreadId, q: QueueId, tries: nat)
    requires Inv(s) && s.cfg.policy.AsCoded? && s.cfg.reliable && CanRun(s, run) && i < |s.threads|
    requires q < |s.queues| && s.threads[i].call == Notifying(q, 1, tries)
    requires OnlyWrites(run, i) && !After(s, run).threads[i].call.Notifying?
    ensures After(s, run).threads[i].call == Crediting(q, 1) <==> FullAtWrites(s, run, i, q)
    ensures After(s, run).threads[i].call == Crediting(q, 1) ==> WritesOf(run, i) == tries || FailedHard(run, i)
    ensures After(s, run).threads[i].call != Crediting(q, 1) ==> After(s, run).threads[i].call.NoCall?
    decreases |run|
  {
    var a, next := run[0], Next(s, run[0]);
    assert forall b :: b in run <==> b == a || b in run[1..];
    assert ThreadOk(s, s.threads[i]);
    StepKeepsInv(s, a);
    NextParts(s, a);
    if a.i == i && a.Write? {
      AttemptOutcome(s, a, q, tries);
    } else {
      assert next.threads[i].call == s.threads[i].call;
    }
    hide Inv, ThreadOk, Enabled, Next, NextThread, NextQueue, NextEvent;
    if next.threads[i].call.Notifying? {
      GivesUpIff(next, run[1..], i, q, next.threads[i].call.retries);
    } else {
      NoMoreWrites(next, run[1..], i, q);
    }
  }

  /** The same from the push: a call of EnqueueGTask on a reliable pipe gives its byte up if and only
      if the pipe was full at every attempt, and it made exactly three unless one failed hard. */
  lemma CallGivesUpIff(s: State, a: Step, run: seq<Step>, q: QueueId)
    requires Inv(s) && s.cfg.policy.AsCoded? && s.cfg.reliable && Enabled(s, a) && CanRun(Next(s, a), run)
    requires if a.Submit? then a.q == q else a.Post? && s.threads[a.i].call.q == q
    requires OnlyWrites(run, a.i) && !After(Next(s, a), run).threads[a.i].call.Notifying?
    ensures var end := After(Next(s, a), run);
            && (end.threads[a.i].call == Crediting(q, 1) <==> FullAtWrites(Next(s, a), run, a.i, q))
            && (end.threads[a.i].call == Crediting(q, 1) ==> WritesOf(run, a.i) == 3 || FailedHard(run, a.i))
            && (end.threads[a.i].call != Crediting(q, 1) ==> end.threads[a.i].call.NoCall?)
  {
    OneByteRequests(s, a.i, q);
    StepKeepsInv(s, a);
    GivesUpIff(Next(s, a), run, a.i, q, 3);
  }

  /** A thread makes its last attempt for q, or one that fails hard, and the pipe is full. */
  predicate LastTryFails(s: State, a: Step, q: QueueId)
    requires Enabled(s, a) && q < |s.queues|
  {
    && a.Write? && s.threads[a.i].call.q == q && (s.threads[a.i].call.retries == 1 || a.out.Failed?)
    && s.queues[q].pipe == s.queues[q].capacity
  }

  ghost predicate SomeLastTryFails(s: State, run: seq<Step>, q: QueueId)
    requires CanRun(s, run) && q < |s.queues|
    decreases |run|
  {
    run != [] && (LastTryFails(s, run[0], q) || SomeLastTryFails(Next(s, run[0]), run[1..], q))
  }

  predicate CreditsTo(th: Thread, q: QueueId) {
    th.call.Crediting? && th.call.q == q
  }

  /** A thread other than i is about to record a loss. */
  ghost predicate OtherCredits(threads: seq<Thread>, i: nat, q: QueueId) {
    exists j :: 0 <= j < |threads| && j != i && CreditsTo(threads[j], q)
  }

  /** A notification for q was given up, or a thread is about to record that it was. */
  ghost predicate Lost(s: State, q: QueueId) {
    0 < GivenUp(s, q) || OtherCredits(s.threads, |s.threads|, q)
  }

  lemma OneCredits(threads: seq<Thread>, i: nat, th: Thread, q: QueueId)
    requires i < |threads|
    ensures var now := threads[i := th];
            OtherCredits(now, |now|, q) <==> CreditsTo(th, q) || OtherCredits(threads, i, q)
  {
    var now := threads[i := th];
    if CreditsTo(th, q) {
      assert CreditsTo(now[i], q);
    }
    if j :| 0 <= j < |threads| && j != i && CreditsTo(threads[j], q) {
      assert CreditsTo(now[j], q);
    }
  }

  /** The thread that steps is about to record a loss afterwards, and only then. */
  lemma CreditsToStep(s: State, a: Step, q: QueueId)
    requires Inv(s) && s.cfg.policy.AsCoded? && s.cfg.reliable && Enabled(s, a) && q < |s.queues|
    ensures LastTryFails(s, a, q) ==> CreditsTo(NextThread(s, a), q)
    ensures CreditsTo(NextThread(s, a), q) ==> LastTryFails(s, a, q) || CreditsTo(s.threads[a.i], q)
    ensures CreditsTo(s.threads[a.i], q) ==> CreditsTo(NextThread(s, a), q) || a.Credit?
  {
    var th := s.threads[a.i];
    assert ThreadOk(s, th);
    if a.Write? {
      AttemptOutcome(s, a, th.call.q, th.call.retries);
    } else if a.Submit? {
      OneByteRequests(s, a.i, a.q);
    } else if a.Post? {
      OneByteRequests(s, a.i, th.call.q);
    }
  }

  lemma LostStep(s: State, a: Step, q: QueueId)
    requires Inv(s) && s.cfg.policy.AsCoded? && s.cfg.reliable && Enabled(s, a) && q < |s.queues|
    ensures Lost(Next(s, a), q) <==> Lost(s, q) || LastTryFails(s, a, q)
  {
    var th := s.threads[a.i];
    assert QueueInv(s, q) && 0 <= GivenUp(s, q);
    assert a.Credit? ==> (CreditsTo(th, q) <==> th.call.q == q);
    GivenUpStep(s, a, q);
    CreditsToStep(s, a, q);
    OneCredits(s.threads, a.i, th, q);
    OneCredits(s.threads, a.i, NextThread(s, a), q);
    assert s.threads[a.i := th] == s.threads;
    NextParts(s, a);
    hide Inv, QueueInv, GivenUp, Enabled, Next, NextThread, NextQueue, NextEvent, LastTryFails, CreditsTo, OtherCredits;
  }

  lemma {:induction false} LostLater(s: State, run: seq<Step>, q: QueueId)
    requires Inv(s) && s.cfg.policy.AsCoded? && s.cfg.reliable && CanRun(s, run) && q < |s.queues|
    ensures Lost(After(s, run), q) <==> Lost(s, q) || SomeLastTryFails(s, run, q)
    decreases |run|
  {
    if run != [] {
      LostStep(s, run[0], q);
      StepKeepsInv(s, run[0]);
      hide Inv, Lost, LastTryFails, Enabled, Next;
      LostLater(Next(s, run[0]), run[1..], q);
    }
  }

  /** Over whole runs on reliable pipes: something was given up on q, or is about to be recorded as
      given up, if and only if the pipe of q was full when some thread made the last of its attempts,
      or one that failed hard. */
  lemma LostIff(s: State, run: seq<Step>, q: QueueId)
    requires Init(s) && s.cfg.policy.AsCoded? && s.cfg.reliable && CanRun(s, run) && q < |s.queues|
    ensures Lost(After(s, run), q) <==> SomeLastTryFails(s, run, q)
  {
    InitInv(s);
    LostLater(s, run, q);
  }

  // ---- Requests ----

  /** The limit grows without bound, yet every request is for one byte: the counter it limits is
      zero whenever the lock is free. */
  lemma OneByteRequests(s: State, i: ThreadId, q: QueueId)
    requires Inv(s) && s.cfg.policy.AsCoded? && i < |s.threads| && q < |s.queues|
    ensures s.queues[q].numOutstanding == 0 && INITIAL_MAX <= s.queues[q].maxOutstanding
    ensures Request(s.queues[q]) == 1
    ensures s.threads[i].call.Notifying? ==> s.threads[i].call.left == 1
    ensures s.threads[i].call.Crediting? ==> s.threads[i].call.short == 1
  {
    assert QueueInv(s, q) && ThreadOk(s, s.threads[i]);
  }

  // ---- Bytes and tasks, in both variants ----

  /** Bytes sent: still in the pipe, read and not spent, or spent on one dequeue each. */
  ghost predicate BytesOk(s: State, q: QueueId)
    requires q < |s.queues|
  {
    BytesSent(s, q) == s.queues[q].pipe + Sum(s.threads, CreditsFor(q)) + s.queues[q].numDequeue
  }

  lemma InitBytes(s: State, q: QueueId)
    requires Init(s) && q < |s.queues|
    ensures BytesOk(s, q)
  {
    SumZero(s.threads, CreditsFor(q));
  }

  lemma ByteMove(s: State, a: Step, q: QueueId)
    requires Enabled(s, a) && q < |s.queues| && ThreadOk(s, s.threads[a.i])
    requires a.Dequeue? ==> s.queues[s.threads[a.i].home].tasks != []
    ensures Sum(NextEvent(s, a), SentOf(q)) ==
              NextQueue(s, a, q).pipe - s.queues[q].pipe
              + NextQueue(s, a, q).numDequeue - s.queues[q].numDequeue
              + CreditsFor(q)(NextThread(s, a)) - CreditsFor(q)(s.threads[a.i])
  {
    SumOne(NextEvent(s, a), SentOf(q));
  }

  lemma BytesKeep(s: State, a: Step, q: QueueId)
    requires Inv(s) && Enabled(s, a) && q < |s.queues| && BytesOk(s, q)
    ensures BytesOk(Next(s, a), q)
  {
    assert ThreadOk(s, s.threads[a.i]);
    ByteImpliesTask(s, a.i);
    ByteMove(s, a, q);
    HistoriesStep(s, a, q);
    SumUpdate(s.threads, a.i, NextThread(s, a), CreditsFor(q));
  }

  lemma {:induction false} RunKeepsBytes(s: State, run: seq<Step>, q: QueueId)
    requires Inv(s) && CanRun(s, run) && q < |s.queues| && BytesOk(s, q)
    ensures Inv(After(s, run)) && BytesOk(After(s, run), q)
    decreases |run|
  {
    if run != [] {
      StepKeepsInv(s, run[0]);
      BytesKeep(s, run[0], q);
      RunKeepsBytes(Next(s, run[0]), run[1..], q);
    }
  }

  /** Bytes and tasks from BytesOk, in any state. */
  lemma BytesAccounted(s: State, q: QueueId)
    requires Inv(s) && q < |s.queues| && BytesOk(s, q)
    ensures var v := s.queues[q];
            v.numEnqueue == BytesSent(s, q) + Sum(s.threads, InFlightFor(q))
                            + v.numOutstanding + (v.maxOutstanding - INITIAL_MAX)
    ensures BytesSent(s, q) <= s.queues[q].numEnqueue
    ensures s.queues[q].numDequeue <= BytesSent(s, q)
  {
    assert QueueInv(s, q);
    SumSplit(s.threads, CreditsFor(q), InFlightFor(q), HeldFor(q));
    SumNonNegative(s.threads, InFlightFor(q));
    SumNonNegative(s.threads, CreditsFor(q));
  }

  /** Over every run, never more bytes than tasks: of every task enqueued, its byte has been sent,
      is in flight, is outstanding, or was given up. */
  lemma BytesNeverExceedTasks(s: State, run: seq<Step>, q: QueueId)
    requires Init(s) && CanRun(s, run) && q < |s.queues|
    ensures var end := After(s, run);
            var v := end.queues[q];
            && v.numEnqueue == BytesSent(end, q) + Sum(end.threads, InFlightFor(q))
                               + v.numOutstanding + (v.maxOutstanding - INITIAL_MAX)
            && v.numDequeue <= BytesSent(end, q) <= v.numEnqueue
  {
    InitInv(s);
    InitBytes(s, q);
    RunKeepsBytes(s, run, q);
    BytesAccounted(After(s, run), q);
  }

  /** In both variants a request fits the 4096-byte buffer, for every thread in every state. */
  lemma RequestsFitBuffer(s: State, i: ThreadId)
    requires Inv(s) && i < |s.threads| && s.threads[i].call.Notifying?
    ensures 1 <= s.threads[i].call.left <= INITIAL_MAX
  {
    assert ThreadOk(s, s.threads[i]);
  }

  // ---- As intended: a backlog is announced again by later enqueues ----

  function Remaining(backlog: nat, enqueues: int): nat {
    if backlog <= (INITIAL_MAX - 1) * enqueues then 0 else backlog - (INITIAL_MAX - 1) * enqueues
  }

  /** From queue value v to v', every enqueue has announced up to 4095 of the backlog. */
  predicate Announced(v: Queue, v': Queue) {
    && v.numEnqueue <= v'.numEnqueue
    && v'.numOutstanding == Remaining(v.numOutstanding, v'.numEnqueue - v.numEnqueue)
  }

  lemma AnnouncedCompose(v: Queue, w: Queue, x: Queue)
    requires Announced(v, w) && w.numEnqueue <= v.numEnqueue + 1 && Announced(w, x)
    ensures Announced(v, x)
  {
  }

  /** One step other than a credit announces up to 4095 of the backlog if it enqueues, and leaves
      the backlog alone if it does not. */
  lemma BacklogMove(s: State, a: Step, q: QueueId)
    requires Enabled(s, a) && q < |s.queues| && s.queues[q].maxOutstanding == INITIAL_MAX
    requires a.Credit? ==> s.threads[a.i].call.q != q
    ensures Announced(s.queues[q], NextQueue(s, a, q))
    ensures NextQueue(s, a, q).numEnqueue <= s.queues[q].numEnqueue + 1
  {
  }

  lemma BacklogStep(s: State, a: Step, q: QueueId)
    requires Inv(s) && Enabled(s, a) && s.cfg.policy.Intended? && q < |s.queues|
    requires GivenUp(Next(s, a), q) == GivenUp(s, q)
    ensures Announced(s.queues[q], Next(s, a).queues[q])
    ensures Next(s, a).queues[q].numEnqueue <= s.queues[q].numEnqueue + 1
  {
    assert QueueInv(s, q);
    assert s.queues[q].maxOutstanding == INITIAL_MAX;
    assert a.Credit? ==> s.threads[a.i].call.Crediting?;
    GivenUpStep(s, a, q);
    BacklogMove(s, a, q);
    NextParts(s, a);
    hide *;
  }

  /** While no further notification is given up, each enqueue announces up to 4095 of the backlog,
      whoever enqueues and whatever else happens in between. */
  lemma {:induction false} BacklogShrinks(s: State, run: seq<Step>, q: QueueId)
    requires Inv(s) && CanRun(s, run) && s.cfg.policy.Intended? && q < |s.queues|
    requires GivenUp(After(s, run), q) == GivenUp(s, q)
    ensures Announced(s.queues[q], After(s, run).queues[q])
    decreases |run|
  {
    if run != [] {
      var next := Next(s, run[0]);
      GivenUpStep(s, run[0], q);
      StepKeepsInv(s, run[0]);
      GivenUpGrows(next, run[1..], q);
      BacklogStep(s, run[0], q);
      BacklogShrinks(next, run[1..], q);
      AnnouncedCompose(s.queues[q], next.queues[q], After(s, run).queues[q]);
    }
  }

  /** A backlog b left by any run is fully announced again exactly after ceil(b / 4095) such
      enqueues. Once no announcement is on its way, announced means sent: every task that was ever
      enqueued then has its byte. */
  lemma BacklogAnnouncedIff(s: State, before: seq<Step>, run: seq<Step>, q: QueueId)
    requires Init(s) && CanRun(s, before) && CanRun(After(s, before), run)
    requires s.cfg.policy.Intended? && q < |s.queues|
    requires GivenUp(After(After(s, before), run), q) == GivenUp(After(s, before), q)
    ensures var mid, end := After(s, before), After(After(s, before), run);
            var b, enqueues := mid.queues[q].numOutstanding, end.queues[q].numEnqueue - mid.queues[q].numEnqueue;
            && (end.queues[q].numOutstanding == 0 <==> (b + 4094) / 4095 <= enqueues)
            && (Sum(end.threads, InFlightFor(q)) == 0 ==>
                  (BytesSent(end, q) == end.queues[q].numEnqueue <==> (b + 4094) / 4095 <= enqueues))
  {
    var mid, end := After(s, before), After(After(s, before), run);
    InitInv(s);
    RunKeepsInv(s, before);
    BacklogShrinks(mid, run, q);
    RunConcat(s, before, run);
    BytesNeverExceedTasks(s, before + run, q);
    RunKeepsInv(mid, run);
    assert QueueInv(end, q);
    hide Inv, QueueInv, After, CanRun, Init, Sum;
  }
}
