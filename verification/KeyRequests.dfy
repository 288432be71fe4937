/** Room key requests over all interleavings of any number of tabs: one record for each request, only
    the moves of the state machine, and no intent to resend that gets lost. */
module KeyRequests {
  import opened Common
  import opened KeyRequestModel

  // ---------- the invariant ----------

  /** A record is kept under its own id, and there is at most one for each request body. */
  ghost predicate StoreOk(store: Store, nextTxn: TxnId) {
    && (forall id :: id in store ==> store[id].requestId == id && id < nextTxn)
    && (forall a, b :: a in store && b in store && store[a].body == store[b].body ==> a == b)
  }

  ghost predicate WasRequested(s: State, id: TxnId) {
    exists m :: m in s.requested && m.id == id
  }

  /** A record with the id that was read still has the body that was read. */
  ghost predicate SeenOk(s: State, body: RequestBody, seen: Option<Request>) {
    seen.Some? ==>
      seen.value.body == body && seen.value.requestId < s.nextTxn &&
      (seen.value.requestId in s.store ==> s.store[seen.value.requestId].body == body)
  }

  /** What the jobs that are about to make their next transaction rely on. */
  ghost predicate JobOk(s: State, job: Job) {
    && (job.QueueRead? || job.CancelRead? ==> SeenOk(s, job.body, job.seen))
    && (job.RequestDelivered? ==> Message(job.req.requestId, TxnOf(job.req)) in s.requested)
    && (job.CancellationDelivered? ==> job.req.requestId in s.cancelled)
    && (job.SendingCancellation? || job.CancellationDelivered? ==>
          job.req.state == if job.andResend then CancellationPendingAndWillResend else CancellationPending)
  }

  ghost predicate Inv(s: State) {
    && StoreOk(s.store, s.nextTxn)
    && (forall id :: id in s.store && s.store[id].state != Unsent ==> WasRequested(s, id))
    && (forall i :: i in s.jobs ==> JobOk(s, s.jobs[i]) && i < s.nextJob)
  }

  /** The moves of the state machine. A record's body, recipients and id never change. */
  ghost predicate Moves(before: Option<Request>, after: Option<Request>) {
    if before == after then true
    else if before.None? then after.value.state == Unsent
    else if after.None? then before.value.state == Unsent || before.value.state == CancellationPending
    else
      && after.value.body == before.value.body
      && after.value.recipients == before.value.recipients
      && after.value.requestId == before.value.requestId
      && match before.value.state {
           case Unsent => after.value.state == Sent
           case Sent => after.value.state == CancellationPending || after.value.state == CancellationPendingAndWillResend
           case CancellationPending => after.value.state == Sent || after.value.state == CancellationPendingAndWillResend
           case CancellationPendingAndWillResend => after.value.state == Unsent
         }
  }

  lemma StepMoves(s: State, a: Action, id: TxnId)
    requires Inv(s) && Enabled(s, a)
    ensures Moves(Lookup(s.store, id), Lookup(Step(s, a).store, id))
  {
  }

  lemma StepKeepsStore(s: State, a: Action)
    requires Inv(s) && Enabled(s, a)
    ensures StoreOk(Step(s, a).store, Step(s, a).nextTxn)
  {
  }

  /** Histories only grow. */
  lemma HistoryGrows(s: State, a: Action)
    requires Enabled(s, a)
    ensures s.requested <= Step(s, a).requested && s.cancelled <= Step(s, a).cancelled
    ensures s.nextJob <= Step(s, a).nextJob && s.nextTxn <= Step(s, a).nextTxn
  {
  }

  lemma StepKeepsRequested(s: State, a: Action, id: TxnId)
    requires Inv(s) && Enabled(s, a)
    requires id in Step(s, a).store && Step(s, a).store[id].state != Unsent
    ensures WasRequested(Step(s, a), id)
  {
    HistoryGrows(s, a);
    StepMoves(s, a, id);
    if id in s.store && s.store[id].state != Unsent {
      var m :| m in s.requested && m.id == id;
      assert m in Step(s, a).requested;
    } else {
      var req := s.jobs[a.i].req;
      assert Message(id, TxnOf(req)) in Step(s, a).requested;
    }
  }

  lemma StepKeepsSeen(s: State, a: Action, body: RequestBody, seen: Option<Request>)
    requires Inv(s) && Enabled(s, a) && SeenOk(s, body, seen)
    ensures SeenOk(Step(s, a), body, seen)
  {
    if seen.Some? {
      StepMoves(s, a, seen.value.requestId);
      if seen.value.requestId !in s.store {
        OldIdsStayAway(s, a, seen.value.requestId);
      }
    }
  }

  /** A deleted record does not come back under its old id. */
  lemma OldIdsStayAway(s: State, a: Action, id: TxnId)
    requires Inv(s) && Enabled(s, a) && id < s.nextTxn && id !in s.store
    ensures id !in Step(s, a).store
  {
  }

  lemma StepKeepsJobs(s: State, a: Action, i: JobId)
    requires Inv(s) && Enabled(s, a) && i in Step(s, a).jobs
    ensures JobOk(Step(s, a), Step(s, a).jobs[i]) && i < Step(s, a).nextJob
  {
    HistoryGrows(s, a);
    var job := Step(s, a).jobs[i];
    if i in s.jobs {
      assert JobOk(s, s.jobs[i]);
      if (job.QueueRead? || job.CancelRead?) && job == s.jobs[i] {
        StepKeepsSeen(s, a, job.body, job.seen);
      }
    }
  }

  /** Every step keeps the invariant. */
  lemma StepKeeps(s: State, a: Action)
    requires Inv(s) && Enabled(s, a)
    ensures Inv(Step(s, a))
  {
    StepKeepsStore(s, a);
    forall id | id in Step(s, a).store && Step(s, a).store[id].state != Unsent
      ensures WasRequested(Step(s, a), id)
    {
      StepKeepsRequested(s, a, id);
    }
    forall i | i in Step(s, a).jobs
      ensures JobOk(Step(s, a), Step(s, a).jobs[i]) && i < Step(s, a).nextJob
    {
      StepKeepsJobs(s, a, i);
    }
  }

  lemma {:induction false} RunKeeps(actions: seq<Action>)
    requires Run(actions).Some?
    ensures Inv(Run(actions).value)
  {
    if actions != [] {
      RunKeeps(actions[..|actions| - 1]);
      StepKeeps(Run(actions[..|actions| - 1]).value, actions[|actions| - 1]);
    }
  }

  // ---------- main results ----------

  /** In every interleaving there is at most one record for each request body. */
  lemma OneRecordPerBody(actions: seq<Action>, a: TxnId, b: TxnId)
    requires Run(actions).Some?
    requires a in Run(actions).value.store && b in Run(actions).value.store
    requires Run(actions).value.store[a].body == Run(actions).value.store[b].body
    ensures a == b
  {
    RunKeeps(actions);
  }

  /** In every interleaving, whatever the calls had read before, each step moves each record along the
      state machine: it is deleted only in state UNSENT or CANCELLATION_PENDING, and it leaves
      CANCELLATION_PENDING_AND_WILL_RESEND only for UNSENT. */
  lemma MovesAlongDiagram(actions: seq<Action>, a: Action, id: TxnId)
    requires Run(actions).Some? && Enabled(Run(actions).value, a)
    ensures var s := Run(actions).value;
            Moves(Lookup(s.store, id), Lookup(Step(s, a).store, id))
  {
    RunKeeps(actions);
    StepMoves(Run(actions).value, a, id);
  }

  lemma RunOfPrefix(actions: seq<Action>, n: nat)
    requires n <= |actions| && Run(actions).Some?
    ensures Run(actions[..n]).Some?
  {
    if n < |actions| {
      RunOfPrefix(actions[..|actions| - 1], n);
      assert actions[..|actions| - 1][..n] == actions[..n];
    } else {
      assert actions[..n] == actions;
    }
  }

  function StateAfter(actions: seq<Action>, n: nat): State
    requires n <= |actions| && Run(actions).Some?
  {
    RunOfPrefix(actions, n);
    Run(actions[..n]).value
  }

  /** A decision to resend is not lost. Once a record is in state CANCELLATION_PENDING_AND_WILL_RESEND it
      stays there, under the same id and for the same body and recipients, until it is UNSENT again,
      whatever other tabs cancel and whichever replies arrive late. */
  lemma {:induction false} ResendNotLost(actions: seq<Action>, n: nat, m: nat, id: TxnId)
    requires n <= m <= |actions| && Run(actions).Some?
    requires InState(StateAfter(actions, n).store, id, CancellationPendingAndWillResend)
    ensures InState(StateAfter(actions, m).store, id, CancellationPendingAndWillResend) ||
            exists k :: n < k <= m && InState(StateAfter(actions, k).store, id, Unsent)
    ensures (forall k :: n < k <= m ==> !InState(StateAfter(actions, k).store, id, Unsent)) ==>
              id in StateAfter(actions, m).store &&
              StateAfter(actions, m).store[id].body == StateAfter(actions, n).store[id].body &&
              StateAfter(actions, m).store[id].recipients == StateAfter(actions, n).store[id].recipients
  {
    if n < m {
      ResendNotLost(actions, n, m - 1, id);
      RunOfPrefix(actions, m);
      RunOfPrefix(actions, m - 1);
      assert actions[..m][..m - 1] == actions[..m - 1];
      RunKeeps(actions[..m - 1]);
      StepMoves(StateAfter(actions, m - 1), actions[m - 1], id);
    }
  }

  /** A record that is not UNSENT stands for a request that the server has accepted. */
  lemma SentWasRequested(actions: seq<Action>, id: TxnId)
    requires Run(actions).Some?
    requires id in Run(actions).value.store && Run(actions).value.store[id].state != Unsent
    ensures WasRequested(Run(actions).value, id)
  {
    RunKeeps(actions);
  }

  /** A record that is deleted was UNSENT, or the server has accepted the cancellation of its request; and
      a request that is to be resent is UNSENT again only after its cancellation was accepted. */
  lemma {:induction false} ForgottenAfterCancellation(actions: seq<Action>, a: Action, id: TxnId)
    requires Run(actions).Some? && Enabled(Run(actions).value, a)
    requires var s := Run(actions).value;
             id in s.store && s.store[id].state != Unsent &&
             (id !in Step(s, a).store || Step(s, a).store[id].state == Unsent)
    ensures id in Run(actions).value.cancelled
  {
    RunKeeps(actions);
    var s := Run(actions).value;
    assert a.Act? && JobOk(s, s.jobs[a.i]);
  }

  // ---------- what a call achieves ----------

  ghost predicate HasRequest(store: Store, body: RequestBody, states: set<RequestState>) {
    exists id :: id in store && store[id].body == body && store[id].state in states
  }

  /** The states of a record that a queueing call is content with: the request is still to be sent, or at
      least it is not about to be cancelled if the call does not ask for resending. */
  function Wanted(resend: bool): set<RequestState> {
    if resend then {Unsent, CancellationPendingAndWillResend} else {Unsent, Sent, CancellationPendingAndWillResend}
  }

  /** The call has read a record in a state which it is going to change, and the record is still in it. */
  predicate WillUpdate(store: Store, seen: Option<Request>, states: set<RequestState>) {
    seen.Some? && seen.value.state in states && InState(store, seen.value.requestId, seen.value.state)
  }

  /** In every interleaving, when a call of `queueRoomKeyRequest` acts on what it has read, it leaves a record
      it is content with if and only if there is one already, or there was none when it read and there is
      none now, so that it adds one, or the record it read in a state that it changes is still in that
      state. A cancellation or a late reply in between makes it fail exactly in the other cases. */
  lemma QueueTakesEffect(actions: seq<Action>, i: JobId, found: Option<TxnId>)
    requires Run(actions).Some? && Enabled(Run(actions).value, Act(i, found)) && Run(actions).value.jobs[i].QueueRead?
    ensures var s, job := Run(actions).value, Run(actions).value.jobs[i];
            HasRequest(Step(s, Act(i, found)).store, job.body, Wanted(job.resend)) <==>
            || HasRequest(s.store, job.body, Wanted(job.resend))
            || (job.seen.None? && found.None?)
            || WillUpdate(s.store, job.seen, if job.resend then {Sent, CancellationPending} else {CancellationPending})
  {
    RunKeeps(actions);
    var s := Run(actions).value;
    assert JobOk(s, s.jobs[i]);
    QueueActs(s, i, found);
  }

  lemma QueueActs(s: State, i: JobId, found: Option<TxnId>)
    requires Inv(s) && Enabled(s, Act(i, found)) && s.jobs[i].QueueRead?
    requires SeenOk(s, s.jobs[i].body, s.jobs[i].seen)
    ensures var job := s.jobs[i];
            HasRequest(Step(s, Act(i, found)).store, job.body, Wanted(job.resend)) <==>
            || HasRequest(s.store, job.body, Wanted(job.resend))
            || (job.seen.None? && found.None?)
            || WillUpdate(s.store, job.seen, if job.resend then {Sent, CancellationPending} else {CancellationPending})
  {
    var job, t := s.jobs[i], Step(s, Act(i, found));
    if HasRequest(s.store, job.body, Wanted(job.resend)) {
      var id :| id in s.store && s.store[id].body == job.body && s.store[id].state in Wanted(job.resend);
      assert id in t.store && t.store[id].body == job.body;
    } else if job.seen.None? && found.None? {
      assert t.store[s.nextTxn].body == job.body;
    } else if WillUpdate(s.store, job.seen, if job.resend then {Sent, CancellationPending} else {CancellationPending}) {
      assert t.store[job.seen.value.requestId].body == job.body;
    } else {
      assert t.store == s.store;
    }
  }

  /** Nothing is resent that was not asked to be: a record becomes one to be resent only in the step of a
      queueing call for its request that asks for resending. */
  lemma OnlyResendsOnRequest(actions: seq<Action>, a: Action, id: TxnId)
    requires Run(actions).Some? && Enabled(Run(actions).value, a)
    requires !InState(Run(actions).value.store, id, CancellationPendingAndWillResend)
    requires InState(Step(Run(actions).value, a).store, id, CancellationPendingAndWillResend)
    ensures var s := Run(actions).value;
            id in s.store && a.Act? && a.i in s.jobs && s.jobs[a.i].QueueRead? && s.jobs[a.i].resend &&
            s.jobs[a.i].body == s.store[id].body
  {
    RunKeeps(actions);
    var s := Run(actions).value;
    assert a.Act? && JobOk(s, s.jobs[a.i]);
  }

  /** What a queueing call leaves behind. It adds a record exactly if there was none when it read and there is none
      when it adds, with a new id. Without resending it takes back a pending cancellation. And it starts over, with
      the same intent, exactly if it is to resend a request that was SENT when it read and is not any more. */
  lemma QueueLeaves(actions: seq<Action>, i: JobId, found: Option<TxnId>)
    requires Run(actions).Some? && Enabled(Run(actions).value, Act(i, found)) && Run(actions).value.jobs[i].QueueRead?
    ensures var s, t, job := Run(actions).value, Step(Run(actions).value, Act(i, found)), Run(actions).value.jobs[i];
            (if job.seen.None? && found.None?
             then exists id :: id !in s.store &&
                               t.store == s.store[id := Request(job.body, job.recipients, id, Unsent, None, None)]
             else t.store.Keys == s.store.Keys) &&
            (!job.resend && WillUpdate(s.store, job.seen, {CancellationPending}) ==>
               InState(t.store, job.seen.value.requestId, Sent)) &&
            (i in t.jobs && !t.jobs[i].SendingCancellation? <==>
               job.resend && job.seen.Some? && job.seen.value.state == Sent &&
               !InState(s.store, job.seen.value.requestId, Sent)) &&
            (i in t.jobs && !t.jobs[i].SendingCancellation? ==> t.jobs[i] == QueueCalled(job.body, job.recipients, true))
  {
    RunKeeps(actions);
    var s := Run(actions).value;
    var job, t := s.jobs[i], Step(s, Act(i, found));
    assert JobOk(s, job);
    if job.seen.None? && found.None? {
      assert s.nextTxn !in s.store;
      assert t.store == s.store[s.nextTxn := Request(job.body, job.recipients, s.nextTxn, Unsent, None, None)];
    }
  }

  /** What a cancelling call leaves behind: an UNSENT record that is still UNSENT is deleted, and one that is still
      SENT gets a pending cancellation, which the call goes on to send; nothing else changes. */
  lemma CancelLeaves(actions: seq<Action>, i: JobId)
    requires Run(actions).Some? && Enabled(Run(actions).value, Act(i, None)) && Run(actions).value.jobs[i].CancelRead?
    ensures var s, t, job := Run(actions).value, Step(Run(actions).value, Act(i, None)), Run(actions).value.jobs[i];
            (forall id :: !(WillUpdate(s.store, job.seen, {Unsent, Sent}) && id == job.seen.value.requestId) ==>
               Lookup(t.store, id) == Lookup(s.store, id)) &&
            (WillUpdate(s.store, job.seen, {Unsent}) ==> job.seen.value.requestId !in t.store) &&
            (WillUpdate(s.store, job.seen, {Sent}) ==>
               InState(t.store, job.seen.value.requestId, CancellationPending)) &&
            (if WillUpdate(s.store, job.seen, {Sent})
             then i in t.jobs && t.jobs[i] == SendingCancellation(t.store[job.seen.value.requestId], false)
             else i !in t.jobs)
  {
  }

  /** In every interleaving, when a call of `cancelRoomKeyRequest` acts on what it has read, it leaves no record
      that is UNSENT or SENT if and only if there is none already, or it read the record in one of these
      states and the record is still in that state. */
  lemma CancelTakesEffect(actions: seq<Action>, i: JobId)
    requires Run(actions).Some? && Enabled(Run(actions).value, Act(i, None)) && Run(actions).value.jobs[i].CancelRead?
    ensures var s, job := Run(actions).value, Run(actions).value.jobs[i];
            !HasRequest(Step(s, Act(i, None)).store, job.body, {Unsent, Sent}) <==>
            !HasRequest(s.store, job.body, {Unsent, Sent}) || WillUpdate(s.store, job.seen, {Unsent, Sent})
  {
    RunKeeps(actions);
    var s := Run(actions).value;
    var job, t := s.jobs[i], Step(s, Act(i, None));
    assert JobOk(s, job);
    if WillUpdate(s.store, job.seen, {Unsent, Sent}) {
      var id := job.seen.value.requestId;
      forall other | other in t.store && t.store[other].body == job.body
        ensures t.store[other].state != Unsent && t.store[other].state != Sent
      {
        assert other == id;
      }
    } else {
      assert t.store == s.store;
    }
  }

  // ---------- what the send loop achieves ----------

  /** What a record becomes when the send loop is done with it. */
  function Sending(r: Request): Option<Request> {
    match r.state
    case Unsent => Some(r.(state := Sent))
    case CancellationPending => None
    case CancellationPendingAndWillResend => Some(r.(state := Unsent))
    case Sent => Some(r)
  }

  /** A round of the send loop for a record, in a run that may have been anything so far: an UNSENT request is sent
      under its transaction id and marked as SENT; a pending cancellation is sent, and the record deleted, or made
      UNSENT again if the request is to be resent. All other records stay as they are. */
  lemma SendRound(actions: seq<Action>, id: TxnId) returns (round: seq<Action>)
    requires Run(actions).Some?
    requires id in Run(actions).value.store && Run(actions).value.store[id].state != Sent
    ensures Run(actions + round).Some?
    ensures var s, t := Run(actions).value, Run(actions + round).value;
            && Lookup(t.store, id) == Sending(s.store[id])
            && (forall other :: other != id ==> Lookup(t.store, other) == Lookup(s.store, other))
            && (if s.store[id].state == Unsent
                then t.requested == s.requested + {Message(id, TxnOf(s.store[id]))} && t.cancelled == s.cancelled
                else t.requested == s.requested && t.cancelled == s.cancelled + {id})
  {
    RunKeeps(actions);
    var s := Run(actions).value;
    var j := s.nextJob;
    Extend(actions, s, Pick(id));
    var picked := Step(s, Pick(id));
    Extend(actions + [Pick(id)], picked, Deliver(j));
    var delivered := Step(picked, Deliver(j));
    Extend(actions + [Pick(id)] + [Deliver(j)], delivered, Act(j, None));
    round := [Pick(id)] + [Deliver(j)] + [Act(j, None)];
    assert actions + round == actions + [Pick(id)] + [Deliver(j)] + [Act(j, None)];
  }

  /** So whatever has happened, a request that is to be resent can be: two rounds cancel it and send it again. */
  lemma ResendIsSent(actions: seq<Action>, id: TxnId) returns (rounds: seq<Action>)
    requires Run(actions).Some? && InState(Run(actions).value.store, id, CancellationPendingAndWillResend)
    ensures Run(actions + rounds).Some?
    ensures var s, t := Run(actions).value, Run(actions + rounds).value;
            InState(t.store, id, Sent) && id in t.cancelled && Message(id, TxnOf(s.store[id])) in t.requested
  {
    var first := SendRound(actions, id);
    var second := SendRound(actions + first, id);
    rounds := first + second;
    assert actions + rounds == actions + first + second;
  }

  /** In any interleaving: what the reply to a cancellation does depends on the state in which the record was taken
      up, and on whether the record is still in it. */
  lemma CancellationReplyExactly(actions: seq<Action>, i: JobId)
    requires Run(actions).Some? && Enabled(Run(actions).value, Act(i, None))
    requires Run(actions).value.jobs[i].CancellationDelivered?
    ensures var s := Run(actions).value;
            var id, state := s.jobs[i].req.requestId, s.jobs[i].req.state;
            var after := Lookup(Step(s, Act(i, None)).store, id);
            if InState(s.store, id, state) then after == Sending(s.store[id]) else after == Lookup(s.store, id)
  {
    RunKeeps(actions);
    assert JobOk(Run(actions).value, Run(actions).value.jobs[i]);
  }

  // ---------- transaction ids ----------

  /** Transaction ids that are in use were handed out before. */
  ghost predicate TxnsOk(s: State) {
    && (forall id :: id in s.store ==> TxnOf(s.store[id]) < s.nextTxn)
    && (forall i :: i in s.jobs && s.jobs[i].SendingRequest? ==> TxnOf(s.jobs[i].req) < s.nextTxn)
    && (forall m :: m in s.requested ==> m.txn < s.nextTxn)
  }

  lemma StoredTxns(s: State, a: Action, id: TxnId)
    requires Inv(s) && Enabled(s, a) && TxnsOk(s) && id in Step(s, a).store
    ensures TxnOf(Step(s, a).store[id]) < Step(s, a).nextTxn
  {
    if id in s.store {
      assert TxnOf(s.store[id]) < s.nextTxn;
    }
  }

  lemma StepKeepsTxns(s: State, a: Action)
    requires Inv(s) && Enabled(s, a) && TxnsOk(s)
    ensures TxnsOk(Step(s, a))
  {
    var t := Step(s, a);
    assert s.nextTxn <= t.nextTxn;
    forall id | id in t.store ensures TxnOf(t.store[id]) < t.nextTxn {
      StoredTxns(s, a, id);
    }
    forall m | m in t.requested ensures m.txn < t.nextTxn {
      assert m in s.requested || (a.Deliver? && m.txn == TxnOf(s.jobs[a.i].req));
    }
  }

  lemma {:induction false} RunKeepsTxns(actions: seq<Action>)
    requires Run(actions).Some?
    ensures TxnsOk(Run(actions).value)
  {
    if actions != [] {
      var before := actions[..|actions| - 1];
      RunKeepsTxns(before);
      RunKeeps(before);
      StepKeepsTxns(Run(before).value, actions[|actions| - 1]);
    }
  }

  /** A request that is to be resent is going to be sent under a new transaction id if and only if it was in
      state SENT when resending was asked for: if its cancellation was pending already, the transaction id
      under which the server has accepted it before is used again. */
  lemma ResentAnewExactly(actions: seq<Action>, a: Action, id: TxnId)
    requires Run(actions).Some? && Enabled(Run(actions).value, a) && AllTimely(actions)
    requires var s := Run(actions).value;
             id in s.store && s.store[id].state != CancellationPendingAndWillResend &&
             InState(Step(s, a).store, id, CancellationPendingAndWillResend)
    ensures var s, t := Run(actions).value, Step(Run(actions).value, a);
            t.requested == s.requested &&
            (Message(id, TxnOf(t.store[id])) !in t.requested <==> s.store[id].state == Sent)
  {
    RunKeeps(actions);
    RunKeepsTxns(actions);
    RunTruthful(actions);
    MovesAlongDiagram(actions, a, id);
  }

  // ---------- late replies to a request ----------

  /** A record that claims to have been sent was sent under its current transaction id. */
  ghost predicate Truthful(s: State) {
    forall id :: id in s.store && (s.store[id].state == Sent || s.store[id].state == CancellationPending) ==>
      Message(id, TxnOf(s.store[id])) in s.requested
  }

  /** The record that is about to be marked as sent. */
  predicate MarksSent(s: State, a: Action) {
    a.Act? && a.i in s.jobs && s.jobs[a.i].RequestDelivered? && InState(s.store, s.jobs[a.i].req.requestId, Unsent)
  }

  /** The reply is to a message with the record's current transaction id. */
  predicate Timely(s: State, a: Action) {
    MarksSent(s, a) ==> TxnOf(s.jobs[a.i].req) == TxnOf(s.store[s.jobs[a.i].req.requestId])
  }

  /** Only a late reply can make a record untruthful: every other step, and the marking on a timely reply,
      keeps all records truthful. The marking on a late reply does so exactly if a message with the current
      transaction id has been accepted as well, which the store does not tell. */
  lemma TruthfulExactly(actions: seq<Action>, a: Action)
    requires Run(actions).Some? && Enabled(Run(actions).value, a) && Truthful(Run(actions).value)
    ensures var s := Run(actions).value;
            (Timely(s, a) ==> Truthful(Step(s, a))) &&
            (!Timely(s, a) ==>
               (Truthful(Step(s, a)) <==>
                Message(s.jobs[a.i].req.requestId, TxnOf(s.store[s.jobs[a.i].req.requestId])) in s.requested))
  {
    RunKeeps(actions);
    var s := Run(actions).value;
    if MarksSent(s, a) {
      MarkedSent(s, a);
    } else {
      StaysTruthful(s, a);
    }
  }

  lemma MarkedSent(s: State, a: Action)
    requires Inv(s) && Enabled(s, a) && Truthful(s) && MarksSent(s, a)
    ensures var id := s.jobs[a.i].req.requestId;
            Truthful(Step(s, a)) <==> Message(id, TxnOf(s.store[id])) in s.requested
    ensures Timely(s, a) ==> Truthful(Step(s, a))
  {
    var id, t := s.jobs[a.i].req.requestId, Step(s, a);
    assert JobOk(s, s.jobs[a.i]);
    assert t.store[id] == s.store[id].(state := Sent);
    assert TxnOf(t.store[id]) == TxnOf(s.store[id]);
    assert t.requested == s.requested;
  }

  lemma StaysTruthful(s: State, a: Action)
    requires Inv(s) && Enabled(s, a) && Truthful(s) && !MarksSent(s, a)
    ensures Truthful(Step(s, a))
  {
    var t := Step(s, a);
    HistoryGrows(s, a);
    forall id | id in t.store && (t.store[id].state == Sent || t.store[id].state == CancellationPending)
      ensures Message(id, TxnOf(t.store[id])) in t.requested
    {
      StepMoves(s, a, id);
      assert id in s.store && TxnOf(t.store[id]) == TxnOf(s.store[id]);
    }
  }

  ghost predicate AllTimely(actions: seq<Action>) {
    actions == [] ||
    (AllTimely(actions[..|actions| - 1]) &&
     (Run(actions[..|actions| - 1]).Some? ==> Timely(Run(actions[..|actions| - 1]).value, actions[|actions| - 1])))
  }

  /** So in every run without such late replies, each record that says SENT has been sent since it was last
      UNSENT: under its current transaction id. */
  lemma {:induction false} RunTruthful(actions: seq<Action>)
    requires Run(actions).Some? && AllTimely(actions)
    ensures Truthful(Run(actions).value)
  {
    if actions != [] {
      var before := actions[..|actions| - 1];
      RunTruthful(before);
      TruthfulExactly(before, actions[|actions| - 1]);
    }
  }

  lemma Extend(actions: seq<Action>, s: State, a: Action)
    requires Run(actions) == Some(s) && Enabled(s, a)
    ensures Run(actions + [a]) == Some(Step(s, a))
  {
    assert (actions + [a])[..|actions|] == actions;
  }

  /** One tab has queued a request, and two send loops are about to send it. */
  lemma PickedTwice(body: RequestBody, recipients: Recipients) returns (actions: seq<Action>, s: State)
    ensures var request := Request(body, recipients, 0, Unsent, None, None);
            Run(actions) == Some(s) &&
            s == State(map[0 := request], map[1 := SendingRequest(request), 2 := SendingRequest(request)], 3, 1, {}, {})
  {
    Added(body, recipients);
    actions, s := AddRun(body, recipients), Run(AddRun(body, recipients)).value;
    Extend(actions, s, Pick(0));
    actions, s := actions + [Pick(0)], Step(s, Pick(0));
    Extend(actions, s, Pick(0));
    actions, s := actions + [Pick(0)], Step(s, Pick(0));
  }

  /** One of them has sent it. */
  lemma SentOnce(body: RequestBody, recipients: Recipients) returns (actions: seq<Action>, s: State)
    ensures var request := Request(body, recipients, 0, Unsent, None, None);
            Run(actions) == Some(s) &&
            s == State(map[0 := request.(state := Sent)], map[2 := SendingRequest(request)], 3, 1, {Message(0, 0)}, {})
  {
    actions, s := PickedTwice(body, recipients);
    Extend(actions, s, Deliver(1));
    actions, s := actions + [Deliver(1)], Step(s, Deliver(1));
    Extend(actions, s, Act(1, None));
    actions, s := actions + [Act(1, None)], Step(s, Act(1, None));
    assert s.jobs == map[2 := SendingRequest(Request(body, recipients, 0, Unsent, None, None))];
  }

  /** Then it is to be resent, and its cancellation is about to be sent. */
  lemma Requeued(body: RequestBody, recipients: Recipients) returns (actions: seq<Action>, s: State)
    ensures var request := Request(body, recipients, 0, Unsent, None, None);
            var resend := Request(body, recipients, 0, CancellationPendingAndWillResend, Some(1), Some(2));
            Run(actions) == Some(s) &&
            s == State(map[0 := resend], map[2 := SendingRequest(request), 3 := SendingCancellation(resend, true)],
                       4, 3, {Message(0, 0)}, {})
  {
    actions, s := SentOnce(body, recipients);
    var queue := Queue(body, recipients, true);
    Extend(actions, s, queue);
    actions, s := actions + [queue], Step(s, queue);
    assert IsFound(s.store, body, Some(0));
    Extend(actions, s, Read(3, Some(0)));
    actions, s := actions + [Read(3, Some(0))], Step(s, Read(3, Some(0)));
    Extend(actions, s, Act(3, None));
    actions, s := actions + [Act(3, None)], Step(s, Act(3, None));
  }

  /** The cancellation was sent and the record is unsent again; the other send loop is still sending. */
  lemma UnsentAgain(body: RequestBody, recipients: Recipients) returns (actions: seq<Action>, s: State)
    ensures var request := Request(body, recipients, 0, Unsent, None, None);
            Run(actions) == Some(s) &&
            s == State(map[0 := Request(body, recipients, 0, Unsent, Some(1), Some(2))],
                       map[2 := SendingRequest(request)], 4, 3, {Message(0, 0)}, {0})
  {
    actions, s := Requeued(body, recipients);
    Extend(actions, s, Deliver(3));
    actions, s := actions + [Deliver(3)], Step(s, Deliver(3));
    Extend(actions, s, Act(3, None));
    actions, s := actions + [Act(3, None)], Step(s, Act(3, None));
    assert s.jobs == map[2 := SendingRequest(Request(body, recipients, 0, Unsent, None, None))];
  }

  /** Such a late reply is possible: two send loops send the same request, one reply comes late, and in
      between the request is resent. The record then says SENT, but the new request was never sent. */
  lemma LateReply(body: RequestBody, recipients: Recipients) returns (actions: seq<Action>, a: Action)
    ensures Run(actions).Some? && Enabled(Run(actions).value, a)
    ensures Truthful(Run(actions).value) && !Truthful(Step(Run(actions).value, a))
  {
    var s;
    actions, s := UnsentAgain(body, recipients);
    Extend(actions, s, Deliver(2));
    actions, s := actions + [Deliver(2)], Step(s, Deliver(2));
    a := Act(2, None);
    assert Step(s, a).store[0].state == Sent && TxnOf(Step(s, a).store[0]) == 2;
  }

  // ---------- calls that come to nothing ----------

  function AddRun(body: RequestBody, recipients: Recipients): seq<Action> {
    [Queue(body, recipients, false), Read(0, None), Act(0, None)]
  }

  /** A tab has queued a request. */
  lemma Added(body: RequestBody, recipients: Recipients)
    ensures Run(AddRun(body, recipients)) ==
            Some(State(map[0 := Request(body, recipients, 0, Unsent, None, None)], map[], 1, 1, {}, {}))
  {
    var actions, s := [], INITIAL;
    var queue := Queue(body, recipients, false);
    Extend(actions, s, queue);
    actions, s := actions + [queue], Step(s, queue);
    Extend(actions, s, Read(0, None));
    actions, s := actions + [Read(0, None)], Step(s, Read(0, None));
    Extend(actions, s, Act(0, None));
    actions, s := actions + [Act(0, None)], Step(s, Act(0, None));
    assert s.jobs == map[];
    assert actions == AddRun(body, recipients);
  }

  function SendRun(body: RequestBody, recipients: Recipients): seq<Action> {
    AddRun(body, recipients) + [Pick(0), Deliver(1), Act(1, None)]
  }

  /** The server has accepted it, and the record says so. */
  lemma AddedAndSent(body: RequestBody, recipients: Recipients)
    ensures Run(SendRun(body, recipients)) ==
            Some(State(map[0 := Request(body, recipients, 0, Sent, None, None)], map[], 2, 1, {Message(0, 0)}, {}))
  {
    Added(body, recipients);
    var actions, s := AddRun(body, recipients), Run(AddRun(body, recipients)).value;
    Extend(actions, s, Pick(0));
    actions, s := actions + [Pick(0)], Step(s, Pick(0));
    Extend(actions, s, Deliver(1));
    actions, s := actions + [Deliver(1)], Step(s, Deliver(1));
    assert s.requested == {Message(0, 0)};
    Extend(actions, s, Act(1, None));
    actions, s := actions + [Act(1, None)], Step(s, Act(1, None));
    assert s.store == map[0 := Request(body, recipients, 0, Sent, None, None)] && s.jobs == map[];
    assert actions == SendRun(body, recipients);
  }

  function RaceRun(body: RequestBody, recipients: Recipients, resend: bool): seq<Action> {
    AddRun(body, recipients) + [Queue(body, recipients, resend), Cancel(body), Read(1, Some(0)), Read(2, Some(0))]
  }

  /** A call to queue a request and one to cancel it have both read an UNSENT record. */
  lemma BothRead(body: RequestBody, recipients: Recipients, resend: bool)
    ensures var r := Request(body, recipients, 0, Unsent, None, None);
            Run(RaceRun(body, recipients, resend)) ==
            Some(State(map[0 := r],
                       map[1 := QueueRead(body, recipients, resend, Some(r)), 2 := CancelRead(body, Some(r))], 3, 1, {}, {}))
  {
    Added(body, recipients);
    var actions, s := AddRun(body, recipients), Run(AddRun(body, recipients)).value;
    var queue, cancel := Queue(body, recipients, resend), Cancel(body);
    Extend(actions, s, queue);
    actions, s := actions + [queue], Step(s, queue);
    Extend(actions, s, cancel);
    actions, s := actions + [cancel], Step(s, cancel);
    Extend(actions, s, Read(1, Some(0)));
    actions, s := actions + [Read(1, Some(0))], Step(s, Read(1, Some(0)));
    Extend(actions, s, Read(2, Some(0)));
    actions, s := actions + [Read(2, Some(0))], Step(s, Read(2, Some(0)));
    var r := Request(body, recipients, 0, Unsent, None, None);
    assert s.jobs == map[1 := QueueRead(body, recipients, resend, Some(r)), 2 := CancelRead(body, Some(r))];
    assert actions == RaceRun(body, recipients, resend);
  }

  /** A call to queue a request, with or without resending, reads an UNSENT record, the cancellation of
      another tab deletes it, and the call ends: nothing is stored or under way, and nothing will be sent. */
  lemma QueueAfterUnsentLost(body: RequestBody, recipients: Recipients, resend: bool)
    ensures var actions := RaceRun(body, recipients, resend) + [Act(2, None), Act(1, None)];
            Run(actions) == Some(State(map[], map[], 3, 1, {}, {}))
  {
    BothRead(body, recipients, resend);
    var actions, s := RaceRun(body, recipients, resend), Run(RaceRun(body, recipients, resend)).value;
    Extend(actions, s, Act(2, None));
    actions, s := actions + [Act(2, None)], Step(s, Act(2, None));
    Extend(actions, s, Act(1, None));
    actions, s := actions + [Act(1, None)], Step(s, Act(1, None));
    assert s.store == map[] && s.jobs == map[];
    assert actions == RaceRun(body, recipients, resend) + [Act(2, None), Act(1, None)];
  }

  function CancelRun(body: RequestBody, recipients: Recipients): seq<Action> {
    SendRun(body, recipients) + [Cancel(body), Read(2, Some(0)), Act(2, None)]
  }

  /** The request has been sent, and its cancellation is being sent. */
  lemma SentAndCancelling(body: RequestBody, recipients: Recipients)
    ensures var r := Request(body, recipients, 0, CancellationPending, Some(1), None);
            Run(CancelRun(body, recipients)) ==
            Some(State(map[0 := r], map[2 := SendingCancellation(r, false)], 3, 2, {Message(0, 0)}, {}))
  {
    AddedAndSent(body, recipients);
    var actions, s := SendRun(body, recipients), Run(SendRun(body, recipients)).value;
    var cancel := Cancel(body);
    Extend(actions, s, cancel);
    actions, s := actions + [cancel], Step(s, cancel);
    Extend(actions, s, Read(2, Some(0)));
    actions, s := actions + [Read(2, Some(0))], Step(s, Read(2, Some(0)));
    Extend(actions, s, Act(2, None));
    actions, s := actions + [Act(2, None)], Step(s, Act(2, None));
    var r := Request(body, recipients, 0, CancellationPending, Some(1), None);
    assert s.store == map[0 := r] && s.jobs == map[2 := SendingCancellation(r, false)];
    assert actions == CancelRun(body, recipients);
  }

  function LateQueueRun(body: RequestBody, recipients: Recipients, resend: bool): seq<Action> {
    CancelRun(body, recipients) + [Queue(body, recipients, resend), Read(3, Some(0)), Deliver(2)]
  }

  /** A call to queue the request has read the record, and the cancellation has been accepted. */
  lemma QueuedWhileCancelling(body: RequestBody, recipients: Recipients, resend: bool)
    ensures var r := Request(body, recipients, 0, CancellationPending, Some(1), None);
            Run(LateQueueRun(body, recipients, resend)) ==
            Some(State(map[0 := r],
                       map[2 := CancellationDelivered(r, false), 3 := QueueRead(body, recipients, resend, Some(r))],
                       4, 2, {Message(0, 0)}, {0}))
  {
    SentAndCancelling(body, recipients);
    var actions, s := CancelRun(body, recipients), Run(CancelRun(body, recipients)).value;
    var queue := Queue(body, recipients, resend);
    Extend(actions, s, queue);
    actions, s := actions + [queue], Step(s, queue);
    Extend(actions, s, Read(3, Some(0)));
    actions, s := actions + [Read(3, Some(0))], Step(s, Read(3, Some(0)));
    Extend(actions, s, Deliver(2));
    actions, s := actions + [Deliver(2)], Step(s, Deliver(2));
    var r := Request(body, recipients, 0, CancellationPending, Some(1), None);
    assert s.jobs == map[2 := CancellationDelivered(r, false), 3 := QueueRead(body, recipients, resend, Some(r))];
    assert s.cancelled == {0};
    assert actions == LateQueueRun(body, recipients, resend);
  }

  /** The same for a call that reads a record in state CANCELLATION_PENDING and is overtaken by the reply to
      its cancellation. */
  lemma QueueAfterCancellationLost(body: RequestBody, recipients: Recipients, resend: bool)
    ensures var actions := LateQueueRun(body, recipients, resend) + [Act(2, None), Act(3, None)];
            Run(actions) == Some(State(map[], map[], 4, 3, {Message(0, 0)}, {0}))
  {
    QueuedWhileCancelling(body, recipients, resend);
    var actions, s := LateQueueRun(body, recipients, resend), Run(LateQueueRun(body, recipients, resend)).value;
    Extend(actions, s, Act(2, None));
    actions, s := actions + [Act(2, None)], Step(s, Act(2, None));
    Extend(actions, s, Act(3, None));
    actions, s := actions + [Act(3, None)], Step(s, Act(3, None));
    assert s.store == map[] && s.jobs == map[];
    assert actions == LateQueueRun(body, recipients, resend) + [Act(2, None), Act(3, None)];
  }

  function LateCancelRun(body: RequestBody, recipients: Recipients): seq<Action> {
    AddRun(body, recipients) + [Pick(0), Cancel(body), Read(2, Some(0))]
  }

  /** A call to cancel a request has read an UNSENT record, which is being sent. */
  lemma CancelledWhileSending(body: RequestBody, recipients: Recipients)
    ensures var r := Request(body, recipients, 0, Unsent, None, None);
            Run(LateCancelRun(body, recipients)) ==
            Some(State(map[0 := r], map[1 := SendingRequest(r), 2 := CancelRead(body, Some(r))], 3, 1, {}, {}))
  {
    Added(body, recipients);
    var actions, s := AddRun(body, recipients), Run(AddRun(body, recipients)).value;
    var cancel := Cancel(body);
    Extend(actions, s, Pick(0));
    actions, s := actions + [Pick(0)], Step(s, Pick(0));
    Extend(actions, s, cancel);
    actions, s := actions + [cancel], Step(s, cancel);
    Extend(actions, s, Read(2, Some(0)));
    actions, s := actions + [Read(2, Some(0))], Step(s, Read(2, Some(0)));
    var r := Request(body, recipients, 0, Unsent, None, None);
    assert s.jobs == map[1 := SendingRequest(r), 2 := CancelRead(body, Some(r))];
    assert actions == LateCancelRun(body, recipients);
  }

  /** Then the reply marks it as SENT, and the call ends without having done anything: the request was sent
      and nothing is going to cancel it. */
  lemma CancelLost(body: RequestBody, recipients: Recipients)
    ensures var actions := LateCancelRun(body, recipients) + [Deliver(1), Act(1, None), Act(2, None)];
            Run(actions) ==
            Some(State(map[0 := Request(body, recipients, 0, Sent, None, None)], map[], 3, 1, {Message(0, 0)}, {}))
  {
    CancelledWhileSending(body, recipients);
    var actions, s := LateCancelRun(body, recipients), Run(LateCancelRun(body, recipients)).value;
    Extend(actions, s, Deliver(1));
    actions, s := actions + [Deliver(1)], Step(s, Deliver(1));
    assert s.requested == {Message(0, 0)};
    Extend(actions, s, Act(1, None));
    actions, s := actions + [Act(1, None)], Step(s, Act(1, None));
    Extend(actions, s, Act(2, None));
    actions, s := actions + [Act(2, None)], Step(s, Act(2, None));
    assert s.store == map[0 := Request(body, recipients, 0, Sent, None, None)] && s.jobs == map[];
    assert actions == LateCancelRun(body, recipients) + [Deliver(1), Act(1, None), Act(2, None)];
  }
}
