/** What others do to the shared store while a caller awaits something. */
module Interference {
  import opened StoreModel
  import opened StoreRuns
  import opened SQLiteStores

  /** One await: what others do to the store meanwhile, then how the awaited call turns out. */
  datatype Await<C> = Await(beside: seq<Op>, choice: C)

  /** One transaction by somebody else. */
  method Perform(store: SQLiteStore, op: Op)
    requires store.Valid() && WellFormed(store.Contents(), op)
    modifies store
    ensures store.Valid() && store.Contents() == After(old(store.Contents()), op)
  {
    hide Sound, MoveTask, AssignTask, CreateTask, CreateQueuedTask, AppendEvent,
         StoreModel.CreateRun, StoreModel.StartRun, StoreModel.FinishRun, ReconcileInterrupted,
         ReserveRequest, RememberResponse, ReleaseRequest, ReconcileRequests, SaveRoute, ReserveDelivery, MarkDelivered, ReleaseDelivery,
         ReconcileDeliveries;
    match op
    case OpCreate(task, e) => var _ := store.CreateTask(task, e);
    case OpCreateQueued(task, c, q, route) => var _ := store.CreateQueuedTask(task, c, q, route);
    case OpMove(id, target, e) => var _ := store.TransitionTask(id, target, e);
    case OpAssign(id, agent, e) => var _ := store.AssignTask(id, agent, e);
    case OpAppend(e) => var _ := store.AppendEvent(e);
    case OpCreateRun(run) => var _ := store.CreateRun(run);
    case OpStartRun(id, at) => var _ := store.StartRun(id, at);
    case OpFinishRun(id, status, at, exit, error) => var _ := store.FinishRun(id, status, at, exit, error);
    case OpReserveRequest(key, at) => var _ := store.ReserveGatewayRequest(key, at);
    case OpRemember(key, response) => var _ := store.RememberGatewayResponse(key, response);
    case OpReleaseRequest(key) => var _ := store.ReleaseGatewayRequest(key);
    case OpReconcileRequests => var _ := store.ReconcileIncompleteGatewayRequests();
    case OpSaveRoute(route) => var _ := store.SaveTaskRoute(route);
    case OpReserveDelivery(id, at) => var _ := store.ReserveDelivery(id, at);
    case OpMarkDelivered(id, at) => var _ := store.MarkDeliveryDelivered(id, at);
    case OpReleaseDelivery(id) => var _ := store.ReleaseDelivery(id);
    case OpReconcileDeliveries => var _ := store.ReconcileReservedDeliveries();
    case OpReconcile(at, ids) => var _ := store.ReconcileInterruptedRunning(at, ids);
  }

  /** Everything others do during one await. */
  method Interfere(store: SQLiteStore, ops: seq<Op>)
    requires store.Valid() && WellFormedRun(store.Contents(), ops)
    modifies store
    ensures store.Valid() && store.Contents() == Final(old(store.Contents()), ops)
  {
    hide Sound, After, WellFormed;
    for i := 0 to |ops|
      invariant store.Valid()
      invariant WellFormedRun(store.Contents(), ops[i..])
      invariant Final(store.Contents(), ops[i..]) == Final(old(store.Contents()), ops)
    {
      assert ops[i..][0] == ops[i] && ops[i..][1..] == ops[i + 1..];
      Perform(store, ops[i]);
    }
  }
}
