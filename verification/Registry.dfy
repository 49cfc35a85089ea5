/** The locked executor registry: the service object, and every interleaving of its callers. */
module Registry {
  import opened Tasks

  type ExecutorId = nat

  /** `bindings` is gexecutor_map_, where an id may be bound to null. `created` executors have been
      constructed, with ids below it; `closing` were taken out of the map by ShutdownExecutor calls
      that have yet to shut them down; `shutdowns` are the Shutdown calls made, in order. */
  datatype Service = Service(
    bindings: map<string, Option<ExecutorId>>,
    created: ExecutorId,
    closing: set<ExecutorId>,
    shutdowns: seq<ExecutorId>)

  /** One critical section, or one Shutdown call outside the lock. */
  datatype Action =
    | CreateAsync(id: string)
    | CreateSync(id: string)
    | Find(id: string)
    | Remove(id: string)
    | Close(e: ExecutorId)

  // ---- What each does ----

  function Fresh(v: Service, id: string): Service {
    v.(bindings := v.bindings[id := Some(v.created)], created := v.created + 1)
  }

  /** The locked part of ShutdownExecutor. Looking an absent id up with operator[] binds it to null,
      and a null binding is not erased. */
  function Removed(v: Service, id: string): Service {
    if id !in v.bindings then v.(bindings := v.bindings[id := None])
    else match v.bindings[id]
         case None => v
         case Some(e) => v.(bindings := v.bindings - {id}, closing := v.closing + {e})
  }

  /** What an id is bound to; null and unbound look alike. It is what gexecutor returns and what
      the locked part of ShutdownExecutor takes out. */
  function Lookup(v: Service, id: string): Option<ExecutorId> {
    if id in v.bindings then v.bindings[id] else None
  }

  function Closed(v: Service, e: ExecutorId): Service {
    v.(closing := v.closing - {e}, shutdowns := v.shutdowns + [e])
  }

  predicate Can(v: Service, a: Action) {
    a.Close? ==> a.e in v.closing
  }

  function Do(v: Service, a: Action): Service
    requires Can(v, a)
  {
    match a
    case CreateAsync(id) => if id in v.bindings then v else Fresh(v, id)
    case CreateSync(id) => Fresh(v, id)
    case Find(_) => v
    case Remove(id) => Removed(v, id)
    case Close(e) => Closed(v, e)
  }

  ghost predicate CanAll(v: Service, acts: seq<Action>)
    decreases |acts|
  {
    acts == [] || (Can(v, acts[0]) && CanAll(Do(v, acts[0]), acts[1..]))
  }

  ghost function DoAll(v: Service, acts: seq<Action>): Service
    requires CanAll(v, acts)
    decreases |acts|
  {
    if acts == [] then v else DoAll(Do(v, acts[0]), acts[1..])
  }

  const EMPTY := Service(map[], 0, {}, [])

  // ---- Each executor is shut down at most once ----

  ghost predicate Bound(v: Service, e: ExecutorId) {
    exists id :: id in v.bindings && v.bindings[id] == Some(e)
  }

  ghost predicate BoundOnce(v: Service) {
    forall id, id' | id in v.bindings && id' in v.bindings && id != id' && v.bindings[id].Some? ::
      v.bindings[id] != v.bindings[id']
  }

  /** An executor is bound under at most one id, or being closed, or shut down: never two of these,
      and never shut down twice. */
  ghost predicate RegistryInv(v: Service) {
    && BoundOnce(v)
    && (forall id | id in v.bindings && v.bindings[id].Some? ::
          var e := v.bindings[id].value; e < v.created && e !in v.closing && e !in v.shutdowns)
    && (forall e | e in v.closing :: e < v.created && e !in v.shutdowns)
    && (forall e | e in v.shutdowns :: e < v.created)
    && (forall i, j | 0 <= i < j < |v.shutdowns| :: v.shutdowns[i] != v.shutdowns[j])
  }

  lemma ActionKeepsInv(v: Service, a: Action)
    requires RegistryInv(v) && Can(v, a)
    ensures RegistryInv(Do(v, a))
  {
  }

  lemma {:induction false} RunKeepsRegistry(v: Service, acts: seq<Action>)
    requires RegistryInv(v) && CanAll(v, acts)
    ensures RegistryInv(DoAll(v, acts))
    decreases |acts|
  {
    if acts != [] {
      ActionKeepsInv(v, acts[0]);
      RunKeepsRegistry(Do(v, acts[0]), acts[1..]);
    }
  }

  /** Under every interleaving of any callers: no executor receives Shutdown from ShutdownExecutor
      twice, and none that has is still handed out. */
  lemma ShutdownAtMostOnce(acts: seq<Action>)
    requires CanAll(EMPTY, acts)
    ensures var v := DoAll(EMPTY, acts);
            && (forall i, j | 0 <= i < j < |v.shutdowns| :: v.shutdowns[i] != v.shutdowns[j])
            && (forall e | e in v.shutdowns :: !Bound(v, e))
  {
    RunKeepsRegistry(EMPTY, acts);
  }

  // ---- Each executor taken out is shut down, and no other ----

  /** The executors a history shuts down, in order. */
  ghost function Closes(acts: seq<Action>): seq<ExecutorId> {
    if acts == [] then [] else (if acts[0].Close? then [acts[0].e] else []) + Closes(acts[1..])
  }

  lemma {:induction false} ClosesAre(acts: seq<Action>, e: ExecutorId)
    ensures e in Closes(acts) <==> Close(e) in acts
  {
    if acts != [] {
      ClosesAre(acts[1..], e);
      assert Close(e) in acts <==> acts[0] == Close(e) || Close(e) in acts[1..];
    }
  }

  /** Over every history, what has been shut down is exactly what was closed, in order: nothing else
      shuts an executor down, and nothing undoes it. */
  lemma {:induction false} ShutdownHistory(v: Service, acts: seq<Action>)
    requires CanAll(v, acts)
    ensures DoAll(v, acts).shutdowns == v.shutdowns + Closes(acts)
    decreases |acts|
  {
    if acts != [] {
      ShutdownHistory(Do(v, acts[0]), acts[1..]);
    }
  }

  lemma {:induction false} ClosingStays(v: Service, acts: seq<Action>, e: ExecutorId)
    requires CanAll(v, acts) && Close(e) !in acts && e in v.closing
    ensures e in DoAll(v, acts).closing
    decreases |acts|
  {
    if acts != [] {
      ClosingStays(Do(v, acts[0]), acts[1..], e);
    }
  }

  /** An executor that ShutdownExecutor takes out is, ever after, bound nowhere, and shut down if
      its Close has happened and still to be shut down if not. */
  lemma TakenIsShutDown(v: Service, id: string, e: ExecutorId, acts: seq<Action>)
    requires RegistryInv(v) && Lookup(v, id) == Some(e) && CanAll(Do(v, Remove(id)), acts)
    ensures var end := DoAll(Do(v, Remove(id)), acts);
            && !Bound(end, e)
            && (e in end.shutdowns <==> Close(e) in acts)
            && (e in end.closing <==> Close(e) !in acts)
  {
    var out := Do(v, Remove(id));
    ActionKeepsInv(v, Remove(id));
    RunKeepsRegistry(out, acts);
    ShutdownHistory(out, acts);
    ClosesAre(acts, e);
    if Close(e) !in acts {
      ClosingStays(out, acts, e);
    }
  }

  /** At some point of a history ShutdownExecutor takes e out. */
  ghost predicate EverTaken(v: Service, acts: seq<Action>, e: ExecutorId)
    requires CanAll(v, acts)
    decreases |acts|
  {
    acts != [] &&
    ((acts[0].Remove? && Lookup(v, acts[0].id) == Some(e)) || EverTaken(Do(v, acts[0]), acts[1..], e))
  }

  lemma {:induction false} OutOnlyIfTaken(v: Service, acts: seq<Action>, e: ExecutorId)
    requires CanAll(v, acts)
    ensures e in DoAll(v, acts).closing || e in DoAll(v, acts).shutdowns <==>
              e in v.closing || e in v.shutdowns || EverTaken(v, acts, e)
    decreases |acts|
  {
    if acts != [] {
      OutOnlyIfTaken(Do(v, acts[0]), acts[1..], e);
    }
  }

  /** Over every history: an executor is shut down, or about to be, if and only if ShutdownExecutor
      took it out at some point. Creating and overwriting shut nothing down. */
  lemma ShutDownIffTaken(acts: seq<Action>, e: ExecutorId)
    requires CanAll(EMPTY, acts)
    ensures var end := DoAll(EMPTY, acts);
            e in end.closing || e in end.shutdowns <==> EverTaken(EMPTY, acts, e)
  {
    OutOnlyIfTaken(EMPTY, acts, e);
  }

  // ---- The map callers see ----

  /** Null bindings dropped. */
  function Live(v: Service): map<string, ExecutorId> {
    map id | id in v.bindings && v.bindings[id].Some? :: v.bindings[id].value
  }

  /** On the live map the operations are lookup, overwrite and erase; creating asynchronously is
      get-or-create exactly if the id has no null binding, and otherwise does nothing. */
  lemma LiveMap(v: Service, id: string)
    ensures Lookup(v, id) == if id in Live(v) then Some(Live(v)[id]) else None
    ensures Live(Do(v, CreateSync(id))) == Live(v)[id := v.created]
    ensures Live(Do(v, Remove(id))) == Live(v) - {id}
    ensures Live(Do(v, CreateAsync(id))) == Live(v)[id := if id in Live(v) then Live(v)[id] else v.created]
            <==> !(id in v.bindings && v.bindings[id].None?)
    ensures id in v.bindings && v.bindings[id].None? ==> Do(v, CreateAsync(id)) == v
  {
    assert Do(v, CreateAsync(id)) == v || id in Live(Do(v, CreateAsync(id)));
  }

  /** What CreateAsyncExecutor returns. */
  function CreateResult(v: Service, id: string): Option<ExecutorId> {
    Lookup(Do(v, CreateAsync(id)), id)
  }

  predicate NullBound(v: Service, id: string) {
    id in v.bindings && v.bindings[id].None?
  }

  predicate Overwrites(acts: seq<Action>, id: string) {
    CreateSync(id) in acts
  }

  /** Action k of a history shut id down when nothing was bound to it, and no CreateSyncExecutor of
      id has followed. */
  ghost predicate Doomed(v: Service, acts: seq<Action>, id: string, k: nat)
    requires CanAll(v, acts)
    decreases |acts|
  {
    && k < |acts|
    && if k == 0 then acts[0] == Remove(id) && Lookup(v, id).None? && !Overwrites(acts[1..], id)
       else Doomed(Do(v, acts[0]), acts[1..], id, k - 1)
  }

  ghost predicate EverDoomed(v: Service, acts: seq<Action>, id: string)
    requires CanAll(v, acts)
  {
    exists k :: Doomed(v, acts, id, k)
  }

  lemma DoomedLater(v: Service, acts: seq<Action>, id: string)
    requires CanAll(v, acts) && acts != []
    ensures EverDoomed(v, acts, id) <==>
              Doomed(v, acts, id, 0) || EverDoomed(Do(v, acts[0]), acts[1..], id)
  {
    if k: nat :| Doomed(v, acts, id, k) && k != 0 {
      assert Doomed(Do(v, acts[0]), acts[1..], id, k - 1);
    }
    if k: nat :| Doomed(Do(v, acts[0]), acts[1..], id, k) {
      assert Doomed(v, acts, id, k + 1);
    }
  }

  lemma {:induction false} NullBoundIff(v: Service, acts: seq<Action>, id: string)
    requires CanAll(v, acts)
    ensures NullBound(DoAll(v, acts), id) <==>
              EverDoomed(v, acts, id) || (NullBound(v, id) && !Overwrites(acts, id))
    decreases |acts|
  {
    if acts != [] {
      DoomedLater(v, acts, id);
      NullBoundIff(Do(v, acts[0]), acts[1..], id);
      assert Overwrites(acts, id) <==> acts[0] == CreateSync(id) || Overwrites(acts[1..], id);
    }
  }

  /** Over every history of calls: CreateAsyncExecutor returns null if and only if at some point
      the id was shut down with nothing bound to it, and no CreateSyncExecutor of it followed. */
  lemma CreateReturnsNullIff(acts: seq<Action>, id: string)
    requires CanAll(EMPTY, acts)
    ensures CreateResult(DoAll(EMPTY, acts), id).None? <==> EverDoomed(EMPTY, acts, id)
  {
    NullBoundIff(EMPTY, acts, id);
  }

  predicate Rebinds(a: Action, id: string) {
    (a.CreateSync? || a.Remove?) && a.id == id
  }

  predicate Untouched(acts: seq<Action>, id: string) {
    forall a | a in acts :: !Rebinds(a, id)
  }

  lemma {:induction false} BindingStable(v: Service, acts: seq<Action>, id: string)
    requires CanAll(v, acts) && Untouched(acts, id) && id in v.bindings
    ensures id in DoAll(v, acts).bindings && DoAll(v, acts).bindings[id] == v.bindings[id]
    decreases |acts|
  {
    if acts != [] {
      assert !Rebinds(acts[0], id);
      BindingStable(Do(v, acts[0]), acts[1..], id);
    }
  }

  /** Two CreateAsyncExecutor calls on one id, with anything in between but a shutdown or an
      overwrite of that id, return the same; and that is an executor exactly if the id had no null
      binding at the first. */
  lemma CreateAsyncIsStable(v: Service, acts: seq<Action>, id: string)
    requires CanAll(Do(v, CreateAsync(id)), acts) && Untouched(acts, id)
    ensures CreateResult(DoAll(Do(v, CreateAsync(id)), acts), id) == CreateResult(v, id)
    ensures CreateResult(v, id).Some? <==> !(id in v.bindings && v.bindings[id].None?)
  {
    BindingStable(Do(v, CreateAsync(id)), acts, id);
  }

  /** Shutting down an id that is not bound leaves a null binding, and every later
      CreateAsyncExecutor on it returns null until CreateSyncExecutor overwrites the id. */
  lemma NullBindingSticks(v: Service, acts: seq<Action>, id: string)
    requires CanAll(Do(v, Remove(id)), acts)
    requires forall a | a in acts && a.CreateSync? :: a.id != id
    requires Lookup(v, id).None?
    ensures CreateResult(DoAll(Do(v, Remove(id)), acts), id).None?
  {
    NullStays(Do(v, Remove(id)), acts, id);
  }

  lemma {:induction false} NullStays(v: Service, acts: seq<Action>, id: string)
    requires CanAll(v, acts)
    requires forall a | a in acts && a.CreateSync? :: a.id != id
    requires id in v.bindings && v.bindings[id].None?
    ensures id in DoAll(v, acts).bindings && DoAll(v, acts).bindings[id].None?
    decreases |acts|
  {
    if acts != [] {
      assert acts[0] in acts;
      NullStays(Do(v, acts[0]), acts[1..], id);
    }
  }

  /** The service object. */
  class GExecutorService {
    var gexecutorMap: map<string, Option<ExecutorId>>
    var nextExecutor: ExecutorId
    ghost var closing: set<ExecutorId>
    ghost var shutdowns: seq<ExecutorId>

    ghost function View(): Service
      reads this
    {
      Service(gexecutorMap, nextExecutor, closing, shutdowns)
    }

    constructor ()
      ensures View() == EMPTY
    {
      gexecutorMap, nextExecutor := map[], 0;
      closing, shutdowns := {}, [];
    }

    method CreateAsyncExecutor(id: string) returns (executor: Option<ExecutorId>)
      modifies this
      ensures View() == Do(old(View()), CreateAsync(id)) && executor == CreateResult(old(View()), id)
      ensures id in old(gexecutorMap) ==> View() == old(View())
      ensures id !in old(gexecutorMap) ==>
                && executor == Some(old(nextExecutor)) && nextExecutor == old(nextExecutor) + 1
                && gexecutorMap == old(gexecutorMap)[id := executor]
      ensures closing == old(closing) && shutdowns == old(shutdowns)
    {
      if id in gexecutorMap {
        return gexecutorMap[id];
      }
      executor := Some(nextExecutor);
      nextExecutor := nextExecutor + 1;
      gexecutorMap := gexecutorMap[id := executor];
    }

    method CreateSyncExecutor(id: string) returns (executor: Option<ExecutorId>)
      modifies this
      ensures View() == Do(old(View()), CreateSync(id))
      ensures executor == Some(old(nextExecutor)) && nextExecutor == old(nextExecutor) + 1
      ensures gexecutorMap == old(gexecutorMap)[id := executor]
      ensures closing == old(closing) && shutdowns == old(shutdowns)
    {
      executor := Some(nextExecutor);
      nextExecutor := nextExecutor + 1;
      gexecutorMap := gexecutorMap[id := executor];
    }

    method Gexecutor(id: string) returns (executor: Option<ExecutorId>)
      ensures executor == if id in Live(View()) then Some(Live(View())[id]) else None
    {
      executor := None;
      if id in gexecutorMap {
        executor := gexecutorMap[id];
      }
    }

    /** The locked part: the lookup inserts null for an absent id; a non-null entry is erased. */
    method RemoveLocked(id: string) returns (executor: Option<ExecutorId>)
      modifies this
      ensures View() == Do(old(View()), Remove(id)) && executor == Lookup(old(View()), id)
      ensures gexecutorMap == if executor.Some? then old(gexecutorMap) - {id} else old(gexecutorMap)[id := None]
      ensures closing == if executor.Some? then old(closing) + {executor.value} else old(closing)
      ensures shutdowns == old(shutdowns) && nextExecutor == old(nextExecutor)
    {
      if id !in gexecutorMap {
        gexecutorMap := gexecutorMap[id := None];
      }
      executor := gexecutorMap[id];
      if executor.Some? {
        gexecutorMap := gexecutorMap - {id};
        closing := closing + {executor.value};
      }
    }

    /** Other callers, between the lock's release and the Shutdown call: they may do anything but
        close what this call took out. The body does nothing; callers know only the contract. */
    method Interfere(ghost mine: Option<ExecutorId>)
      requires RegistryInv(View())
      modifies this
      ensures OthersDid(old(View()), View(), mine)
    {
      assert OthersActed(View(), View(), mine, []);
    }

    /** Take the executor out under the lock, then shut it down outside it. */
    method ShutdownExecutor(id: string) returns (error: int, ghost between: Service)
      requires RegistryInv(View())
      modifies this
      ensures RegistryInv(View())
      ensures var taken := Lookup(old(View()), id);
              && error == (if taken.None? then -1 else 0)
              && OthersDid(Do(old(View()), Remove(id)), between, taken)
              && (taken.Some? ==> taken.value in between.closing && View() == Do(between, Close(taken.value)))
              && (taken.Some? ==> shutdowns == between.shutdowns + [taken.value] && taken.value !in closing)
              && (taken.None? ==> View() == between)
    {
      ActionKeepsInv(View(), Remove(id));
      ghost var v := View();
      var executor := RemoveLocked(id);
      Interfere(executor);
      between := View();
      OthersKeepClosing(Do(v, Remove(id)), between, executor);
      if executor.None? {
        return -1, between;
      }
      ActionKeepsInv(between, Close(executor.value));
      closing, shutdowns := closing - {executor.value}, shutdowns + [executor.value];
      error := 0;
    }
  }

  ghost predicate OthersDid(v: Service, v': Service, mine: Option<ExecutorId>) {
    exists acts :: OthersActed(v, v', mine, acts)
  }

  ghost predicate OthersActed(v: Service, v': Service, mine: Option<ExecutorId>, acts: seq<Action>) {
    CanAll(v, acts) && DoAll(v, acts) == v' && (mine.Some? ==> Close(mine.value) !in acts)
  }

  lemma OthersKeepClosing(v: Service, v': Service, mine: Option<ExecutorId>)
    requires RegistryInv(v) && OthersDid(v, v', mine)
    ensures RegistryInv(v')
    ensures mine.Some? && mine.value in v.closing ==> mine.value in v'.closing
  {
    var acts :| OthersActed(v, v', mine, acts);
    RunKeepsRegistry(v, acts);
    if mine.Some? && mine.value in v.closing {
      ClosingStays(v, acts, mine.value);
    }
  }
}
