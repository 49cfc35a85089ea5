/** What it means for one thread's code to refine the protocol: however the other threads
    interleave, the state has moved along a run in which this thread took exactly its own steps. */
module Refinement {
  import opened Protocol
  import opened Accounting
  import opened SetOnce
  import opened Progress

  /** The steps of a run that thread i takes itself; removing its read event is done to it. */
  ghost function OwnSteps(run: seq<Step>, i: ThreadId): seq<Step> {
    if run == [] then []
    else (if run[0].i == i && !run[0].Shutdown? then [run[0]] else []) + OwnSteps(run[1..], i)
  }

  /** With `once`, only runs in which callers submit each object at most once count. */
  ghost predicate RanAlong(once: bool, s: State, s': State, i: ThreadId, own: seq<Step>, run: seq<Step>) {
    (once ==> FreshRun(s, run)) && CanRun(s, run) && After(s, run) == s' && OwnSteps(run, i) == own
  }

  ghost predicate Ran(once: bool, s: State, s': State, i: ThreadId, own: seq<Step>) {
    exists run :: RanAlong(once, s, s', i, own, run)
  }

  /** What is kept of a state with any callers, and with callers that submit each object at most once. */
  ghost predicate Kept(once: bool, s: State) {
    Inv(s) && (once ==> SafeInv(s))
  }

  /** The other threads ran, making at most n submissions. */
  ghost predicate OthersRan(once: bool, s: State, s': State, i: ThreadId, n: nat) {
    exists run :: RanAlong(once, s, s', i, [], run) && Submits(run) <= n
  }

  lemma NobodyRan(once: bool, s: State, i: ThreadId)
    ensures RanAlong(once, s, s, i, [], []) && Ran(once, s, s, i, []) && OthersRan(once, s, s, i, 0)
  {
    assert RanAlong(once, s, s, i, [], []);
    assert Submits([]) == 0;
  }

  lemma OneStep(once: bool, s: State, a: Step)
    requires Enabled(s, a) && (once ==> FreshStep(s, a)) && !a.Shutdown?
    ensures Ran(once, s, Next(s, a), a.i, [a])
  {
    hide Enabled, Next, FreshStep;
    var run, s' := [a], Next(s, a);
    assert run[0] == a && run[1..] == [];
    assert FreshRun(s', []) && CanRun(s', []) && After(s', []) == s' && OwnSteps([], a.i) == [];
    assert (once ==> FreshRun(s, run)) && CanRun(s, run);
    assert After(s, run) == s';
    assert OwnSteps(run, a.i) == [a] + OwnSteps([], a.i) == [a];
    assert RanAlong(once, s, s', a.i, [a], run);
  }

  lemma {:induction false} OwnStepsConcat(run: seq<Step>, more: seq<Step>, i: ThreadId)
    ensures OwnSteps(run + more, i) == OwnSteps(run, i) + OwnSteps(more, i)
  {
    if run == [] {
      assert run + more == more;
    } else {
      assert (run + more)[1..] == run[1..] + more;
      OwnStepsConcat(run[1..], more, i);
    }
  }

  lemma {:induction false} FreshConcat(s: State, run: seq<Step>, more: seq<Step>)
    requires FreshRun(s, run) && CanRun(s, run) && FreshRun(After(s, run), more)
    ensures FreshRun(s, run + more)
    decreases |run|
  {
    hide Enabled, FreshStep, Next;
    if run == [] {
      assert run + more == more;
    } else {
      assert (run + more)[1..] == run[1..] + more;
      FreshConcat(Next(s, run[0]), run[1..], more);
    }
  }

  lemma RanCompose(once: bool, s: State, t: State, u: State, i: ThreadId, own: seq<Step>, more: seq<Step>)
    requires Ran(once, s, t, i, own) && Ran(once, t, u, i, more)
    ensures Ran(once, s, u, i, own + more)
  {
    var first :| RanAlong(once, s, t, i, own, first);
    var second :| RanAlong(once, t, u, i, more, second);
    if once {
      FreshConcat(s, first, second);
    }
    RunConcat(s, first, second);
    OwnStepsConcat(first, second, i);
    assert RanAlong(once, s, u, i, own + more, first + second);
  }

  /** A thread's own step extends its run, and what is safe stays safe. */
  lemma KeptAlong(once: bool, from: State, s: State, a: Step, own: seq<Step>)
    requires Kept(once, s) && Enabled(s, a) && (once ==> FreshStep(s, a))
    requires !a.Shutdown? && Ran(once, from, s, a.i, own)
    ensures Kept(once, Next(s, a)) && Ran(once, from, Next(s, a), a.i, own + [a])
  {
    hide Inv, SafeInv, Ran, Enabled, FreshStep, Next;
    StepKeepsInv(s, a);
    if once {
      StepKeepsSafe(s, a);
    }
    OneStep(once, s, a);
    RanCompose(once, from, s, Next(s, a), a.i, own, [a]);
  }

  /** Other threads leave a thread as it is, but for its read event. */
  ghost predicate SameThread(s: State, s': State, i: ThreadId) {
    && i < |s.threads| && i < |s'.threads|
    && s'.threads[i] == s.threads[i].(armed := s'.threads[i].armed)
  }

  lemma {:induction false} OthersKeepThread(s: State, run: seq<Step>, i: ThreadId)
    requires CanRun(s, run) && OwnSteps(run, i) == [] && i < |s.threads|
    ensures SameThread(s, After(s, run), i)
    decreases |run|
  {
    if run != [] {
      OthersKeepThread(Next(s, run[0]), run[1..], i);
    }
  }

  /** An exec_task_q_ that is set stays set. */
  lemma {:induction false} ExecQGrows(s: State, run: seq<Step>)
    requires CanRun(s, run)
    ensures s.execQ.Keys <= After(s, run).execQ.Keys
    decreases |run|
  {
    if run != [] {
      assert s.execQ.Keys <= Next(s, run[0]).execQ.Keys;
      ExecQGrows(Next(s, run[0]), run[1..]);
    }
  }

  // ---- Fuel: the steps left while the environment submits at most `budget` more tasks ----

  ghost function Fuel(s: State, budget: nat): int {
    Rank(s) + budget * SubmitCost(s)
  }

  lemma OthersBurnFuel(once: bool, s: State, s': State, i: ThreadId, budget: nat, budget': nat)
    requires Inv(s) && budget' <= budget && OthersRan(once, s, s', i, budget - budget') && i < |s.threads|
    ensures SameThread(s, s', i) && Ran(once, s, s', i, [])
    ensures 0 <= Fuel(s', budget') <= Fuel(s, budget)
    ensures |s'.queues| == |s.queues| && |s'.threads| == |s.threads| && s.execQ.Keys <= s'.execQ.Keys
  {
    var run :| RanAlong(once, s, s', i, [], run) && Submits(run) <= budget - budget';
    OthersKeepThread(s, run, i);
    ExecQGrows(s, run);
    RunsAreBounded(s, run);
    Budgeted(Submits(run), budget', budget, SubmitCost(s));
    assert SubmitCost(s') == SubmitCost(s);
  }

  lemma Budgeted(n: nat, left: nat, budget: nat, c: nat)
    requires n + left <= budget
    ensures 0 <= left * c
    ensures n * c + left * c <= budget * c
  {
    assert n * c + left * c == (n + left) * c;
    assert (budget - (n + left)) * c >= 0;
  }

  /** A thread's own steps burn fuel; its own submissions cost what one submission may. */
  lemma OwnStepBurnsFuel(s: State, a: Step, budget: nat)
    requires Inv(s) && Enabled(s, a)
    ensures 0 <= Fuel(Next(s, a), budget) < Fuel(s, budget) + if a.Submit? then SubmitCost(s) else 0
  {
    hide Inv, Enabled, Next, Rank;
    RankStep(s, a);
    assert 0 <= budget * SubmitCost(s);
  }

  lemma SpendBudget(s: State, budget: nat)
    requires 0 < budget
    ensures Fuel(s, budget - 1) == Fuel(s, budget) - SubmitCost(s)
  {
    assert (budget - 1) * SubmitCost(s) == budget * SubmitCost(s) - SubmitCost(s);
  }
}
