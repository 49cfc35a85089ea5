/** Shutdown removes a worker's read event. It does not end a drain that is under way. */
module ShuttingDown {
  import opened Sums
  import opened Tasks
  import opened Protocol
  import opened Accounting
  import opened Progress

  function Disarmed(s: State, j: ThreadId): State
    requires Enabled(s, Shutdown(j))
  {
    s.(threads := s.threads[j := s.threads[j].(armed := false)])
  }

  lemma ShutdownDisarms(s: State, j: ThreadId)
    requires Enabled(s, Shutdown(j))
    ensures Next(s, Shutdown(j)) == Disarmed(s, j)
  {
    var down := Next(s, Shutdown(j));
    assert down.queues == s.queues;
    assert down.log == s.log;
  }

  lemma ShutdownKeepsEnabled(s: State, j: ThreadId, a: Step)
    requires Enabled(s, Shutdown(j)) && a != Wake(j) && a != Shutdown(j)
    ensures Enabled(Disarmed(s, j), a) <==> Enabled(s, a)
  {
  }

  lemma ShutdownKeepsEffects(s: State, j: ThreadId, a: Step, q: QueueId)
    requires Enabled(s, Shutdown(j)) && a != Wake(j) && a != Shutdown(j)
    requires Enabled(s, a) && Enabled(Disarmed(s, j), a)
    ensures NextThread(Disarmed(s, j), a) ==
              if a.i == j then NextThread(s, a).(armed := false) else NextThread(s, a)
    ensures NextEvent(Disarmed(s, j), a) == NextEvent(s, a)
    ensures q < |s.queues| ==> NextQueue(Disarmed(s, j), a, q) == NextQueue(s, a, q)
  {
  }

  lemma OtherStepsKeepArmed(s: State, j: ThreadId, a: Step)
    requires Enabled(s, Shutdown(j)) && a != Shutdown(j) && Enabled(s, a)
    ensures Enabled(Next(s, a), Shutdown(j))
  {
  }

  lemma DisarmedCommutes(s: State, j: ThreadId, a: Step)
    requires Enabled(s, Shutdown(j)) && a != Wake(j) && a != Shutdown(j)
    requires Enabled(s, a) && Enabled(Disarmed(s, j), a) && Enabled(Next(s, a), Shutdown(j))
    ensures Next(Disarmed(s, j), a) == Disarmed(Next(s, a), j)
  {
    hide NextThread, NextQueue, NextEvent, Respond;
    forall q | 0 <= q < |s.queues|
      ensures NextQueue(Disarmed(s, j), a, q) == NextQueue(s, a, q)
    {
      ShutdownKeepsEffects(s, j, a, q);
    }
    ShutdownKeepsEffects(s, j, a, |s.queues|);
    var left, right := Next(Disarmed(s, j), a), Disarmed(Next(s, a), j);
    assert left.queues == right.queues;
    assert left.threads == right.threads;
  }

  /** A shutdown commutes with every other step but a wake-up of the same worker: the drain it
      interrupts goes on exactly as it would have. */
  lemma ShutdownCommutes(s: State, j: ThreadId, a: Step)
    requires Enabled(s, Shutdown(j)) && a != Wake(j) && a != Shutdown(j)
    ensures Enabled(Next(s, Shutdown(j)), a) <==> Enabled(s, a)
    ensures Enabled(s, a) ==>
              Enabled(Next(s, a), Shutdown(j)) &&
              Next(Next(s, Shutdown(j)), a) == Next(Next(s, a), Shutdown(j))
  {
    ShutdownDisarms(s, j);
    ShutdownKeepsEnabled(s, j, a);
    if Enabled(s, a) {
      OtherStepsKeepArmed(s, j, a);
      ShutdownDisarms(Next(s, a), j);
      DisarmedCommutes(s, j, a);
    }
  }

  /** A worker that leaves taskq_cb has spent every byte it read. */
  lemma LeavesWithNothing(s: State, a: Step, i: ThreadId)
    requires Inv(s) && Enabled(s, a) && i < |s.threads|
    requires s.threads[i].inCb && !Next(s, a).threads[i].inCb
    ensures a == Leave(i) && s.threads[i].credits == 0 && s.threads[i].run.None?
    ensures s.queues[s.threads[i].home].pipe == 0
  {
  }

  /** Once no worker is inside taskq_cb, the tasks nobody will execute are exactly accounted for. */
  lemma LeftBehind(s: State, q: QueueId)
    requires Inv(s) && q < |s.queues| && forall th | th in s.threads :: !th.inCb
    ensures |s.queues[q].tasks| ==
              s.queues[q].pipe + Sum(s.threads, InFlightFor(q)) + s.queues[q].numOutstanding
              + (s.queues[q].maxOutstanding - INITIAL_MAX)
    ensures s.cfg.policy.AsCoded? ==>
              |s.queues[q].tasks| == s.queues[q].pipe + Sum(s.threads, InFlightFor(q)) + GivenUp(s, q)
  {
    assert QueueInv(s, q);
    forall th | th in s.threads
      ensures HeldFor(q)(th) == InFlightFor(q)(th)
    {
      var i :| 0 <= i < |s.threads| && s.threads[i] == th;
      assert ThreadOk(s, th);
    }
    SumMonotone(s.threads, HeldFor(q), InFlightFor(q));
    SumMonotone(s.threads, InFlightFor(q), HeldFor(q));
  }

  /** A worker shut down while it drains still drains: the system does not stop before it has
      left, so when it stops nothing that was claimed is unspent. */
  lemma StopsOutsideCallbacks(s: State)
    requires Inv(s) && Terminal(s)
    ensures forall th | th in s.threads :: !th.inCb && th.credits == 0
  {
    TerminalIsQuiet(s);
    forall i | 0 <= i < |s.threads|
      ensures !s.threads[i].inCb
    {
      var th := s.threads[i];
      assert ThreadOk(s, th);
      assert th in s.threads;
      if th.inCb {
        var v := s.queues[th.home];
        assert Enabled(s, if v.pipe == 0 then Leave(i) else Read(i, 1));
        assert false;
      }
    }
  }
}
