/** Deferred tasks as values: a bound function, two optional hooks and a reply queue. */
module Tasks {

  type QueueId = nat
  type ObjectId = nat

  datatype Option<+T> = None | Some(value: T)

  /** What a bound function does when it is called: it returns, or it throws. For a task without
      a result the returned value is never looked at. `code` is not carried by the exception: it
      is what -errno happens to be when the exception is caught. */
  datatype Outcome = Returned(result: int) | Threw(code: int)

  /** What the stored task_fn_ is bound to. */
  datatype Work =
    | Function(fn: nat)
    | Callback(cb: nat, arg: int)
    | Errback(eb: nat, error: int)

  /** A task object. `obj` is its identity, never used again for another object, unlike an
      address; two tasks with the same identity are one object. */
  datatype Task = Task(
    obj: ObjectId,
    work: Work,
    callback: Option<nat>,
    errback: Option<nat>,
    resp: QueueId)
  {
    predicate Hooked() {
      callback.Some? || errback.Some?
    }
  }

  /** The function bound into the response, if the outcome has a hook to call. */
  function ResponseWork(t: Task, o: Outcome): seq<Work> {
    match o
    case Returned(v) => if t.callback.Some? then [Callback(t.callback.value, v)] else []
    case Threw(code) => if t.errback.Some? then [Errback(t.errback.value, code)] else []
  }

  /** The task that Execute posts to the reply queue, if any: allocated as object `obj`, carrying
      no hooks, with the queue the task ran on as its own reply queue. */
  function Respond(t: Task, o: Outcome, obj: ObjectId, execQueue: QueueId): Option<Task> {
    var work := ResponseWork(t, o);
    if work == [] then None else Some(Task(obj, work[0], None, None, execQueue))
  }

  /** A reply made on queue q is what the outcome and the hooks ask for, has no hooks of its own,
      and answers to q. */
  predicate ReplyIsResponse(t: Task, o: Outcome, q: QueueId, reply: Option<Task>) {
    match reply
    case None => ResponseWork(t, o) == []
    case Some(r) => ResponseWork(t, o) == [r.work] && !r.Hooked() && r.resp == q
  }
}
