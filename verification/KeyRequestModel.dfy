/** The outgoing room key requests of src/crypto/OutgoingRoomKeyRequestManager.js: any number of tabs
    work on one store. Each transaction with the store is one step, and so is each answer of the
    server; what is still to be done is kept as a set of jobs. */
module KeyRequestModel {
  import opened Common

  type RequestBody(==, !new, 0)
  type Recipients(==, !new, 0)

  /** Request ids and transaction ids come from one supply of fresh ones. */
  type TxnId = nat

  datatype RequestState = Unsent | Sent | CancellationPending | CancellationPendingAndWillResend

  datatype Request = Request(
    body: RequestBody,
    recipients: Recipients,
    requestId: TxnId,
    state: RequestState,
    cancellationTxnId: Option<TxnId>,
    requestTxnId: Option<TxnId>)

  // ---------- the store ----------

  type Store = map<TxnId, Request>

  predicate InState(store: Store, id: TxnId, expected: RequestState) {
    id in store && store[id].state == expected
  }

  /** `updateOutgoingRoomKeyRequest`: a compare-and-set on the state. */
  function Update(store: Store, id: TxnId, expected: RequestState, updated: Request -> Request): Store {
    if InState(store, id, expected) then store[id := updated(store[id])] else store
  }

  /** `deleteOutgoingRoomKeyRequest` */
  function Delete(store: Store, id: TxnId, expected: RequestState): Store {
    if InState(store, id, expected) then store - {id} else store
  }

  /** `found` is the record with a body, if there is one. */
  predicate IsFound(store: Store, body: RequestBody, found: Option<TxnId>) {
    match found
    case Some(id) => id in store && store[id].body == body
    case None => forall id :: id in store ==> store[id].body != body
  }

  function Fetch(store: Store, found: Option<TxnId>): Option<Request> {
    if found.Some? then Lookup(store, found.value) else None
  }

  // ---------- jobs ----------

  /** A call that waits for a transaction, or for the server. */
  datatype Job =
    | QueueCalled(body: RequestBody, recipients: Recipients, resend: bool)
    | QueueRead(body: RequestBody, recipients: Recipients, resend: bool, seen: Option<Request>)
    | CancelCalled(body: RequestBody)
    | CancelRead(body: RequestBody, seen: Option<Request>)
    | SendingRequest(req: Request)
    | RequestDelivered(req: Request)
    | SendingCancellation(req: Request, andResend: bool)
    | CancellationDelivered(req: Request, andResend: bool)

  type JobId = nat

  /** A request message for a request id, under a transaction id. */
  datatype Message = Message(id: TxnId, txn: TxnId)

  datatype State = State(
    store: Store,
    jobs: map<JobId, Job>,
    nextJob: JobId,
    nextTxn: TxnId,
    requested: set<Message>,     // history: the request messages the server accepted
    cancelled: set<TxnId>)       // history: the request ids whose cancellation the server accepted

  const INITIAL := State(map[], map[], 0, 0, {}, {})

  /** The transaction id that `_sendOutgoingRoomKeyRequest` uses. */
  function TxnOf(req: Request): TxnId {
    if req.requestTxnId.Some? then req.requestTxnId.value else req.requestId
  }

  function Spawn(s: State, job: Job): State {
    s.(jobs := s.jobs[s.nextJob := job], nextJob := s.nextJob + 1)
  }

  function End(s: State, i: JobId): State {
    s.(jobs := s.jobs - {i})
  }

  function Become(s: State, i: JobId, job: Job): State {
    s.(jobs := s.jobs[i := job])
  }

  /** The rest of `queueRoomKeyRequest` once the record has been read. `found` is what
      `getOrAddOutgoingRoomKeyRequest` finds, if it is called. */
  function QueueAct(s: State, i: JobId, job: Job, found: Option<TxnId>): State
    requires job.QueueRead?
  {
    if job.seen.None? then
      var id := s.nextTxn;
      if found.Some? then End(s, i).(nextTxn := id + 1)
      else
        End(s, i).(nextTxn := id + 1, store := s.store[id := Request(job.body, job.recipients, id, Unsent, None, None)])
    else
      var req := job.seen.value;
      match req.state
      case Unsent => End(s, i)
      case CancellationPendingAndWillResend => End(s, i)
      case CancellationPending =>
        var next := if job.resend then CancellationPendingAndWillResend else Sent;
        End(s, i).(nextTxn := s.nextTxn + 1,
                   store := Update(s.store, req.requestId, CancellationPending,
                                   (r: Request) => r.(state := next, cancellationTxnId := Some(s.nextTxn))))
      case Sent =>
        if !job.resend then End(s, i)
        else if !InState(s.store, req.requestId, Sent) then
          Become(s, i, QueueCalled(job.body, job.recipients, true)).(nextTxn := s.nextTxn + 2)
        else
          var updated := s.store[req.requestId].(state := CancellationPendingAndWillResend,
                                                 cancellationTxnId := Some(s.nextTxn),
                                                 requestTxnId := Some(s.nextTxn + 1));
          Become(s, i, SendingCancellation(updated, true))
            .(nextTxn := s.nextTxn + 2, store := s.store[req.requestId := updated])
  }

  /** The rest of `cancelRoomKeyRequest`. */
  function CancelAct(s: State, i: JobId, job: Job): State
    requires job.CancelRead?
  {
    if job.seen.None? then End(s, i) else
      var req := job.seen.value;
      match req.state
      case CancellationPending => End(s, i)
      case CancellationPendingAndWillResend => End(s, i)
      case Unsent => End(s, i).(store := Delete(s.store, req.requestId, Unsent))
      case Sent =>
        if !InState(s.store, req.requestId, Sent) then End(s, i).(nextTxn := s.nextTxn + 1)
        else
          var updated := s.store[req.requestId].(state := CancellationPending, cancellationTxnId := Some(s.nextTxn));
          Become(s, i, SendingCancellation(updated, false))
            .(nextTxn := s.nextTxn + 1, store := s.store[req.requestId := updated])
  }

  /** What follows a message that the server accepted. */
  function Commit(s: State, i: JobId, job: Job): State
    requires job.RequestDelivered? || job.CancellationDelivered?
  {
    var id := job.req.requestId;
    if job.RequestDelivered? then End(s, i).(store := Update(s.store, id, Unsent, (r: Request) => r.(state := Sent)))
    else if job.andResend then
      End(s, i).(store := Update(s.store, id, CancellationPendingAndWillResend, (r: Request) => r.(state := Unsent)))
    else End(s, i).(store := Delete(s.store, id, CancellationPending))
  }

  // ---------- steps ----------

  datatype Action =
    | Queue(body: RequestBody, recipients: Recipients, resend: bool)
    | Cancel(body: RequestBody)
    | Pick(id: TxnId)                          // a send loop takes a record that is not in state SENT
    | Read(i: JobId, found: Option<TxnId>)     // a call reads the record with its body
    | Act(i: JobId, found: Option<TxnId>)      // a call makes its next transaction
    | Deliver(i: JobId)                        // the server accepts a message
    | Lose(i: JobId)                           // a message cannot be sent

  predicate Enabled(s: State, a: Action) {
    match a
    case Queue(_, _, _) => true
    case Cancel(_) => true
    case Pick(id) => id in s.store && s.store[id].state != Sent
    case Read(i, found) =>
      i in s.jobs && (s.jobs[i].QueueCalled? || s.jobs[i].CancelCalled?) && IsFound(s.store, s.jobs[i].body, found)
    case Act(i, found) =>
      i in s.jobs && match s.jobs[i] {
        case QueueRead(body, _, _, seen) => seen.None? ==> IsFound(s.store, body, found)
        case CancelRead(_, _) => true
        case RequestDelivered(_) => true
        case CancellationDelivered(_, _) => true
        case _ => false
      }
    case Deliver(i) => i in s.jobs && (s.jobs[i].SendingRequest? || s.jobs[i].SendingCancellation?)
    case Lose(i) => i in s.jobs && (s.jobs[i].SendingRequest? || s.jobs[i].SendingCancellation?)
  }

  function Step(s: State, a: Action): State
    requires Enabled(s, a)
  {
    match a
    case Queue(body, recipients, resend) => Spawn(s, QueueCalled(body, recipients, resend))
    case Cancel(body) => Spawn(s, CancelCalled(body))
    case Pick(id) =>
      var req := s.store[id];
      if req.state == Unsent then Spawn(s, SendingRequest(req))
      else Spawn(s, SendingCancellation(req, req.state == CancellationPendingAndWillResend))
    case Read(i, found) =>
      var job := s.jobs[i];
      if job.QueueCalled?
      then Become(s, i, QueueRead(job.body, job.recipients, job.resend, Fetch(s.store, found)))
      else Become(s, i, CancelRead(job.body, Fetch(s.store, found)))
    case Act(i, found) =>
      if s.jobs[i].QueueRead? then QueueAct(s, i, s.jobs[i], found)
      else if s.jobs[i].CancelRead? then CancelAct(s, i, s.jobs[i])
      else Commit(s, i, s.jobs[i])
    case Deliver(i) =>
      var job := s.jobs[i];
      if job.SendingRequest?
      then Become(s, i, RequestDelivered(job.req)).(requested := s.requested + {Message(job.req.requestId, TxnOf(job.req))})
      else Become(s, i, CancellationDelivered(job.req, job.andResend)).(cancelled := s.cancelled + {job.req.requestId})
    case Lose(i) => End(s, i)
  }

  function Run(actions: seq<Action>): Option<State> {
    if actions == [] then Some(INITIAL) else
      var before := Run(actions[..|actions| - 1]);
      if before.Some? && Enabled(before.value, actions[|actions| - 1])
      then Some(Step(before.value, actions[|actions| - 1])) else None
  }
}
