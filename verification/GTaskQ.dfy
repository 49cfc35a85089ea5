/** The queue object: its counters, its deque and its pipe, and the critical sections and system
    calls that change them. */
module TaskQueue {
  import opened Tasks
  import opened Protocol

  class GTaskQ {
    var taskQueue: seq<Task>
    var numEnqueue: nat
    var numDequeue: nat
    var maxOutstanding: nat
    var numOutstanding: nat
    var pipe: nat
    const capacity: nat

    constructor (capacity: nat)
      ensures View() == Queue([], 0, 0, INITIAL_MAX, 0, 0, capacity)
    {
      taskQueue := [];
      numEnqueue, numDequeue := 0, 0;
      maxOutstanding, numOutstanding := 4096, 0;
      pipe := 0;
      this.capacity := capacity;
    }

    function View(): Queue
      reads this
    {
      Queue(taskQueue, numEnqueue, numDequeue, maxOutstanding, numOutstanding, pipe, capacity)
    }

    /** Reserve notification bytes: all that are outstanding, up to the limit. What is reserved is
        no longer outstanding, so no other thread sends it too. */
    method NumNotifnToWrite(numNew: nat) returns (n: nat)
      modifies this`numOutstanding
      ensures n <= maxOutstanding && n + numOutstanding == old(numOutstanding) + numNew
      ensures n < maxOutstanding ==> numOutstanding == 0
      ensures numNew == 1 ==> n == Request(old(View()))
    {
      numOutstanding := numOutstanding + numNew;
      n := numOutstanding;
      if n > maxOutstanding {
        n := maxOutstanding;
      }
      numOutstanding := numOutstanding - n;
    }

    /** The locked part of EnqueueGTask. */
    method PushLocked(task: Task) returns (n: nat)
      modifies this
      ensures n == Request(old(View())) && View() == Push(old(View()), task)
    {
      numEnqueue := numEnqueue + 1;
      taskQueue := taskQueue + [task];
      n := NumNotifnToWrite(1);
    }

    /** The second locked part of EnqueueGTask: as coded the shortfall goes to the limit, as the
        comment has it back to what is outstanding. */
    method CreditLocked(policy: Policy, short: nat)
      modifies this
      ensures View() == CreditBack(policy, old(View()), short)
    {
      match policy {
        case AsCoded => maxOutstanding := maxOutstanding + short;
        case Intended => numOutstanding := numOutstanding + short;
      }
    }

    /** The locked part of DequeueGTask. */
    method PopLocked() returns (task: Option<Task>)
      modifies this
      ensures old(taskQueue) == [] ==> task.None? && View() == old(View())
      ensures old(taskQueue) != [] ==> task == Some(old(taskQueue)[0]) && View() == Pop(old(View()))
    {
      task := None;
      if taskQueue != [] {
        task := Some(taskQueue[0]);
        taskQueue := taskQueue[1..];
        numDequeue := numDequeue + 1;
      }
    }

    /** write() on the non-blocking write end: any legal outcome. */
    method WritePipe(cfg: Config, n: nat) returns (out: WriteOutcome)
      requires pipe <= capacity
      modifies this
      ensures Legal(cfg, old(View()), n, out)
      ensures View() == old(View()).(pipe := old(pipe) + Delivered(out))
    {
      out := *;
      if !Legal(cfg, View(), n, out) {
        out := if pipe + n <= capacity then Wrote(n) else Again;
      }
      pipe := pipe + Delivered(out);
    }

    /** read() on the non-blocking read end: some of the bytes there, on reliable pipes as many as
        asked for or as there are; -1, or 0 at end of file, only if there are none. */
    method ReadPipe(cfg: Config, max: nat) returns (numBytes: int)
      requires 0 < max
      modifies this
      ensures numBytes <= 0 <==> old(pipe) == 0
      ensures -1 <= numBytes <= max && numBytes <= old(pipe)
      ensures cfg.reliable && 0 < old(pipe) ==> numBytes == if old(pipe) <= max then old(pipe) else max
      ensures View() == old(View()).(pipe := old(pipe) - if numBytes <= 0 then 0 else numBytes)
    {
      numBytes := *;
      if pipe == 0 {
        numBytes := if numBytes == 0 then 0 else -1;
      } else {
        if cfg.reliable || !(0 < numBytes <= max && numBytes <= pipe) {
          numBytes := if pipe <= max then pipe else max;
        }
        pipe := pipe - numBytes;
      }
    }
  }
}
