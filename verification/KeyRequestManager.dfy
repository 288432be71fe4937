/** src/crypto/OutgoingRoomKeyRequestManager.js as it is written, over the store of
    src/crypto/store/indexeddb-crypto-store-backend.js. Every method is one step of `KeyRequestModel`. */
module KeyRequestManager {
  import opened Common
  import opened KeyRequestModel

  /** The members that an update assigns; `None` for those that it leaves alone. */
  datatype Updates = Updates(state: RequestState, cancellationTxnId: Option<TxnId>, requestTxnId: Option<TxnId>)

  function Assign(r: Request, u: Updates): Request {
    r.(state := u.state,
       cancellationTxnId := if u.cancellationTxnId.Some? then u.cancellationTxnId else r.cancellationTxnId,
       requestTxnId := if u.requestTxnId.Some? then u.requestTxnId else r.requestTxnId)
  }

  predicate NoneIn(requests: Store, state: RequestState) {
    forall id :: id in requests ==> requests[id].state != state
  }

  /** The states in which there is something to send: cancellations come first. */
  const SENDABLE := [CancellationPending, CancellationPendingAndWillResend, Unsent]

  class CryptoStore {
    var requests: Store

    constructor ()
      ensures requests == map[]
    {
      requests := map[];
    }

    method GetOutgoingRoomKeyRequest(body: RequestBody) returns (found: Option<TxnId>)
      ensures IsFound(requests, body, found)
    {
      var todo := requests.Keys;
      while todo != {}
        invariant todo <= requests.Keys
        invariant forall id :: id in requests && id !in todo ==> requests[id].body != body
        decreases todo
      {
        var id :| id in todo;
        todo := todo - {id};
        if requests[id].body == body {
          return Some(id);
        }
      }
      found := None;
    }

    method GetOrAddOutgoingRoomKeyRequest(request: Request) returns (found: Option<TxnId>)
      modifies this
      ensures IsFound(old(requests), request.body, found)
      ensures requests == if found.Some? then old(requests) else old(requests)[request.requestId := request]
    {
      found := GetOutgoingRoomKeyRequest(request.body);
      if found.None? {
        requests := requests[request.requestId := request];
      }
    }

    /** A record in one of the given states, in the order in which the states are given. */
    method GetOutgoingRoomKeyRequestByState(wantedStates: seq<RequestState>) returns (found: Option<TxnId>)
      ensures found.Some? ==>
                found.value in requests &&
                exists i :: 0 <= i < |wantedStates| && wantedStates[i] == requests[found.value].state &&
                            forall k :: 0 <= k < i ==> NoneIn(requests, wantedStates[k])
      ensures found.None? ==> forall i :: 0 <= i < |wantedStates| ==> NoneIn(requests, wantedStates[i])
    {
      for i := 0 to |wantedStates|
        invariant forall k :: 0 <= k < i ==> NoneIn(requests, wantedStates[k])
      {
        var todo := requests.Keys;
        while todo != {}
          invariant todo <= requests.Keys
          invariant forall id :: id in requests && id !in todo ==> requests[id].state != wantedStates[i]
          decreases todo
        {
          var id :| id in todo;
          todo := todo - {id};
          if requests[id].state == wantedStates[i] {
            return Some(id);
          }
        }
      }
      found := None;
    }

    method UpdateOutgoingRoomKeyRequest(id: TxnId, expected: RequestState, updates: Updates)
      returns (updated: Option<Request>)
      modifies this
      ensures updated.Some? <==> InState(old(requests), id, expected)
      ensures updated.Some? ==> updated.value == Assign(old(requests)[id], updates)
      ensures requests == if updated.Some? then old(requests)[id := updated.value] else old(requests)
    {
      if id !in requests || requests[id].state != expected {
        return None;
      }
      requests := requests[id := Assign(requests[id], updates)];
      updated := Some(requests[id]);
    }

    method DeleteOutgoingRoomKeyRequest(id: TxnId, expected: RequestState)
      modifies this
      ensures requests == Delete(old(requests), id, expected)
    {
      if id in requests && requests[id].state == expected {
        requests := requests - {id};
      }
    }
  }

  /** The managers of all tabs that share a store, with the asynchronous calls that are under way. */
  class Managers {
    const store: CryptoStore
    var jobs: map<JobId, Job>
    var nextJob: JobId
    var nextTxn: TxnId
    ghost var requested: set<Message>
    ghost var cancelled: set<TxnId>

    ghost function Contents(): State
      reads this, store
    {
      State(store.requests, jobs, nextJob, nextTxn, requested, cancelled)
    }

    constructor ()
      ensures Contents() == INITIAL && fresh(store)
    {
      store := new CryptoStore();
      jobs, nextJob, nextTxn := map[], 0, 0;
      requested, cancelled := {}, {};
    }

    method MakeTxnId() returns (txn: TxnId)
      modifies this`nextTxn
      ensures txn == old(nextTxn) && nextTxn == old(nextTxn) + 1
    {
      txn := nextTxn;
      nextTxn := nextTxn + 1;
    }

    method Spawn(job: Job)
      modifies this`jobs, this`nextJob
      ensures Contents() == KeyRequestModel.Spawn(old(Contents()), job)
    {
      jobs := jobs[nextJob := job];
      nextJob := nextJob + 1;
    }

    method QueueRoomKeyRequest(body: RequestBody, recipients: Recipients, resend: bool)
      modifies this
      ensures Contents() == Step(old(Contents()), Queue(body, recipients, resend))
    {
      Spawn(QueueCalled(body, recipients, resend));
    }

    method CancelRoomKeyRequest(body: RequestBody)
      modifies this
      ensures Contents() == Step(old(Contents()), Cancel(body))
    {
      Spawn(CancelCalled(body));
    }

    /** `_sendOutgoingRoomKeyRequests`: a request is sent only if there is no cancellation to send. */
    method SendOutgoingRoomKeyRequests() returns (found: Option<TxnId>)
      modifies this
      ensures found.None? ==>
                Contents() == old(Contents()) && forall id :: id in store.requests ==> store.requests[id].state == Sent
      ensures found.Some? ==>
                Enabled(old(Contents()), Pick(found.value)) && Contents() == Step(old(Contents()), Pick(found.value))
      ensures found.Some? && store.requests[found.value].state == Unsent ==>
                forall id :: id in store.requests ==> store.requests[id].state == Unsent || store.requests[id].state == Sent
    {
      found := store.GetOutgoingRoomKeyRequestByState(SENDABLE);
      assert SENDABLE[0] == CancellationPending && SENDABLE[1] == CancellationPendingAndWillResend && SENDABLE[2] == Unsent;
      if found.Some? {
        var req := store.requests[found.value];
        match req.state {
          case Unsent => Spawn(SendingRequest(req));
          case CancellationPending => Spawn(SendingCancellation(req, false));
          case CancellationPendingAndWillResend => Spawn(SendingCancellation(req, true));
          case Sent =>
        }
      }
    }

    /** A call reads the record with its request body. */
    method OnRead(i: JobId) returns (ghost found: Option<TxnId>)
      requires i in jobs && (jobs[i].QueueCalled? || jobs[i].CancelCalled?)
      modifies this
      ensures Enabled(old(Contents()), Read(i, found)) && Contents() == Step(old(Contents()), Read(i, found))
    {
      var job := jobs[i];
      var id := store.GetOutgoingRoomKeyRequest(job.body);
      var req := Fetch(store.requests, id);
      jobs := jobs[i := if job.QueueCalled? then QueueRead(job.body, job.recipients, job.resend, req)
                        else CancelRead(job.body, req)];
      found := id;
    }

    /** The rest of `queueRoomKeyRequest`. */
    method OnQueueRead(i: JobId) returns (ghost found: Option<TxnId>)
      requires i in jobs && jobs[i].QueueRead?
      modifies this, store
      ensures Enabled(old(Contents()), Act(i, found)) && Contents() == Step(old(Contents()), Act(i, found))
    {
      var job := jobs[i];
      found := None;
      if job.seen.None? {
        var id := MakeTxnId();
        var existing := store.GetOrAddOutgoingRoomKeyRequest(Request(job.body, job.recipients, id, Unsent, None, None));
        found := existing;
        jobs := jobs - {i};
        return;
      }
      var req := job.seen.value;
      match req.state {
        case Unsent => jobs := jobs - {i};
        case CancellationPendingAndWillResend => jobs := jobs - {i};
        case CancellationPending =>
          var state := if job.resend then CancellationPendingAndWillResend else Sent;
          var txn := MakeTxnId();
          var updated := store.UpdateOutgoingRoomKeyRequest(req.requestId, CancellationPending, Updates(state, Some(txn), None));
          jobs := jobs - {i};
        case Sent =>
          if job.resend {
            var cancellationTxn := MakeTxnId();
            var requestTxn := MakeTxnId();
            var updated := store.UpdateOutgoingRoomKeyRequest(
              req.requestId, Sent, Updates(CancellationPendingAndWillResend, Some(cancellationTxn), Some(requestTxn)));
            // after a race with another tab the call starts over
            jobs := jobs[i := if updated.None? then QueueCalled(job.body, job.recipients, true)
                              else SendingCancellation(updated.value, true)];
          } else {
            jobs := jobs - {i};
          }
      }
    }

    /** The rest of `cancelRoomKeyRequest`. */
    method OnCancelRead(i: JobId)
      requires i in jobs && jobs[i].CancelRead?
      modifies this, store
      ensures Contents() == Step(old(Contents()), Act(i, None))
    {
      var seen := jobs[i].seen;
      if seen.Some? && seen.value.state == Unsent {
        store.DeleteOutgoingRoomKeyRequest(seen.value.requestId, Unsent);
      } else if seen.Some? && seen.value.state == Sent {
        var txn := MakeTxnId();
        var updated := store.UpdateOutgoingRoomKeyRequest(
          seen.value.requestId, Sent, Updates(CancellationPending, Some(txn), None));
        if updated.Some? {
          jobs := jobs[i := SendingCancellation(updated.value, false)];
          return;
        }
      }
      jobs := jobs - {i};
    }

    /** The server accepts a message. */
    method OnDelivered(i: JobId)
      requires Enabled(Contents(), Deliver(i))
      modifies this
      ensures Contents() == Step(old(Contents()), Deliver(i))
    {
      var job := jobs[i];
      if job.SendingRequest? {
        requested := requested + {Message(job.req.requestId, TxnOf(job.req))};
        jobs := jobs[i := RequestDelivered(job.req)];
      } else {
        cancelled := cancelled + {job.req.requestId};
        jobs := jobs[i := CancellationDelivered(job.req, job.andResend)];
      }
    }

    /** What follows: the record is updated, or deleted. */
    method OnCommit(i: JobId)
      requires i in jobs && (jobs[i].RequestDelivered? || jobs[i].CancellationDelivered?)
      modifies this, store
      ensures Contents() == Step(old(Contents()), Act(i, None))
    {
      var job := jobs[i];
      if job.RequestDelivered? {
        var updated := store.UpdateOutgoingRoomKeyRequest(job.req.requestId, Unsent, Updates(Sent, None, None));
      } else if job.andResend {
        var updated := store.UpdateOutgoingRoomKeyRequest(
          job.req.requestId, CancellationPendingAndWillResend, Updates(Unsent, None, None));
      } else {
        store.DeleteOutgoingRoomKeyRequest(job.req.requestId, CancellationPending);
      }
      jobs := jobs - {i};
    }

    method OnLost(i: JobId)
      requires Enabled(Contents(), Lose(i))
      modifies this
      ensures Contents() == Step(old(Contents()), Lose(i))
    {
      jobs := jobs - {i};
    }
  }
}
