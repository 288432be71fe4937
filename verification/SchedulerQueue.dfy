/** What holds of a scheduler queue over whole runs: nothing is lost or reordered, there is always
    exactly one thing to wait for, and the attempts to send one event are bounded. */
module SchedulerQueue {
  import opened Common
  import opened SchedulerModel

  // ---------- the invariant ----------

  /** `ids` without the removed ones, in order. */
  function Keep(ids: seq<EntryId>, removed: set<EntryId>): seq<EntryId> {
    if ids == [] then [] else
      var last := ids[|ids| - 1];
      Keep(ids[..|ids| - 1], removed) + if last in removed then [] else [last]
  }

  ghost predicate Distinct(ids: seq<EntryId>) {
    forall i, j :: 0 <= i < j < |ids| ==> ids[i] != ids[j]
  }

  /** Nothing is lost, duplicated or reordered. */
  ghost predicate Conserved(q: Queue) {
    q.history.settled + Ids(q.entries) == Keep(q.history.enqueued, q.history.removed)
  }

  /** A queue is active exactly when it has an outstanding continuation, and then it has exactly one; an
      entry that is being sent is the head of the queue. */
  ghost predicate OneContinuation(q: Queue) {
    && |q.continuations| == (if q.active then 1 else 0)
    && (q.active && q.continuations[0].Send? ==> q.entries != [] && q.entries[0] == q.continuations[0].entry)
  }

  ghost predicate Inv(s: State) {
    && Distinct(s.queue.history.enqueued)
    && (forall r :: r in s.queue.history.removed ==> r in s.queue.history.enqueued)
    && Conserved(s.queue)
    && OneContinuation(s.queue)
    && (s.running && s.queue.entries != [] ==> s.queue.active)
  }

  lemma {:induction false} KeepMembers(ids: seq<EntryId>, removed: set<EntryId>, x: EntryId)
    ensures x in Keep(ids, removed) <==> x in ids && x !in removed
  {
    if ids != [] {
      KeepMembers(ids[..|ids| - 1], removed, x);
      assert ids == ids[..|ids| - 1] + [ids[|ids| - 1]];
    }
  }

  lemma {:induction false} KeepDistinct(ids: seq<EntryId>, removed: set<EntryId>)
    requires Distinct(ids)
    ensures Distinct(Keep(ids, removed))
  {
    if ids != [] {
      var before, last := ids[..|ids| - 1], ids[|ids| - 1];
      KeepDistinct(before, removed);
      KeepMembers(before, removed, last);
    }
  }

  /** Removing one more identifier takes it out where it stands. */
  lemma {:induction false} KeepWithout(ids: seq<EntryId>, removed: set<EntryId>, i: nat)
    requires Distinct(ids) && i < |Keep(ids, removed)|
    ensures Keep(ids, removed + {Keep(ids, removed)[i]}) == DropAt(Keep(ids, removed), i)
  {
    var before, last := ids[..|ids| - 1], ids[|ids| - 1];
    var kept := Keep(before, removed);
    var x := Keep(ids, removed)[i];
    if i < |kept| {
      KeepWithout(before, removed, i);
      KeepMembers(before, removed, x);
      assert x != last;
    } else {
      KeepMembers(before, removed, x);
      assert x == last;
      KeepUnused(before, removed, x);
    }
  }

  lemma {:induction false} KeepUnused(ids: seq<EntryId>, removed: set<EntryId>, x: EntryId)
    requires x !in ids
    ensures Keep(ids, removed + {x}) == Keep(ids, removed)
  {
    if ids != [] {
      KeepUnused(ids[..|ids| - 1], removed, x);
    }
  }

  lemma PushKeeps(alg: RetryAlgorithm, s: State, e: Entry)
    requires Inv(s) && e.id !in s.queue.history.enqueued
    ensures Inv(Step(alg, s, DoPush(e)))
  {
    var q, h := s.queue, s.queue.history;
    var pushed := h.enqueued + [e.id];
    assert e.id !in h.removed;
    assert pushed[..|pushed| - 1] == h.enqueued;
    assert Keep(pushed, h.removed) == Keep(h.enqueued, h.removed) + [e.id];
    assert Ids(q.entries + [e]) == Ids(q.entries) + [e.id];
  }

  lemma IdsWithout(entries: seq<Entry>, i: nat)
    requires i < |entries|
    ensures Ids(DropAt(entries, i)) == DropAt(Ids(entries), i)
  {
  }

  lemma RemoveConserves(q: Queue, i: nat)
    requires Distinct(q.history.enqueued) && Conserved(q) && i < |q.entries|
    ensures q.entries[i].id in q.history.enqueued
    ensures q.history.settled + Ids(DropAt(q.entries, i)) ==
            Keep(q.history.enqueued, q.history.removed + {q.entries[i].id})
  {
    var h, k := q.history, |q.history.settled| + i;
    var kept := Keep(h.enqueued, h.removed);
    assert kept[k] == Ids(q.entries)[i];
    KeepWithout(h.enqueued, h.removed, k);
    KeepMembers(h.enqueued, h.removed, kept[k]);
    IdsWithout(q.entries, i);
    assert DropAt(kept, k) == h.settled + DropAt(Ids(q.entries), i);
  }

  lemma RemoveKeeps(alg: RetryAlgorithm, s: State, event: EventId)
    requires Inv(s) && SparesInFlight(s.queue, event)
    ensures Inv(Step(alg, s, DoRemove(event)))
  {
    var q := s.queue;
    var i := Find(q.entries, event);
    if i < |q.entries| {
      RemoveConserves(q, i);
      if q.active && q.continuations[0].Send? {
        assert q.continuations[0] != Send(q.entries[i]);
        assert i != 0;
      }
    }
  }

  lemma SettleKeeps(s: State, i: nat, ok: bool)
    requires Inv(s) && Sending(s.queue, i)
    ensures Inv(s.(queue := Settle(s.queue, i, ok)))
  {
    var q := s.queue;
    assert i == 0 && q.active;
    assert q.history.settled + Ids(q.entries) == q.history.settled + [q.entries[0].id] + Ids(q.entries[1..]);
  }

  /** Every allowed step keeps the invariant, whatever the retry algorithm says. */
  lemma StepKeeps(alg: RetryAlgorithm, s: State, a: Action)
    requires Inv(s) && Allowed(s, a)
    ensures Inv(Step(alg, s, a))
  {
    match a
    case DoPush(e) => PushKeeps(alg, s, e);
    case DoRemove(event) => RemoveKeeps(alg, s, event);
    case StartQueues =>
    case StopQueues =>
    case Resolved(i) => SettleKeeps(s, i, true);
    case Rejected(i, err) =>
      var entry := s.queue.continuations[i].entry;
      var wait := WaitFor(alg, s.queue, entry, err);
      var failed := s.(queue := Fail(s.queue, entry.id, Failure(err, wait)));
      assert Inv(failed);
      if wait == GIVE_UP {
        SettleKeeps(failed, i, false);
      }
    case TimerFired(i) =>
  }

  lemma {:induction false} RunKeeps(alg: RetryAlgorithm, actions: seq<Action>)
    requires Run(alg, actions).Some?
    ensures Inv(Run(alg, actions).value)
  {
    if actions != [] {
      RunKeeps(alg, actions[..|actions| - 1]);
      StepKeeps(alg, Run(alg, actions[..|actions| - 1]).value, actions[|actions| - 1]);
    }
  }

  // ---------- conservation and progress ----------

  lemma DistinctParts(q: Queue)
    requires Distinct(q.history.enqueued) && Conserved(q)
    ensures Distinct(q.history.settled + Ids(q.entries))
    ensures Distinct(q.history.settled)
    ensures forall i :: 0 <= i < |q.entries| ==> q.entries[i].id !in q.history.settled
  {
    KeepDistinct(q.history.enqueued, q.history.removed);
    var all := q.history.settled + Ids(q.entries);
    assert forall i :: 0 <= i < |q.history.settled| ==> q.history.settled[i] == all[i];
    forall i | 0 <= i < |q.entries| ensures q.entries[i].id !in q.history.settled {
      assert all[|q.history.settled| + i] == q.entries[i].id;
    }
  }

  /** The entries that were queued in a run, in order. */
  function PushesOf(actions: seq<Action>): seq<EntryId> {
    if actions == [] then [] else
      var last := actions[|actions| - 1];
      PushesOf(actions[..|actions| - 1]) + if last.DoPush? then [last.entry.id] else []
  }

  lemma StepEnqueues(alg: RetryAlgorithm, s: State, a: Action)
    requires Enabled(s, a)
    ensures Step(alg, s, a).queue.history.enqueued == s.queue.history.enqueued + if a.DoPush? then [a.entry.id] else []
  {
  }

  lemma {:induction false} EnqueuedAre(alg: RetryAlgorithm, actions: seq<Action>)
    requires Run(alg, actions).Some?
    ensures Run(alg, actions).value.queue.history.enqueued == PushesOf(actions)
  {
    if actions != [] {
      EnqueuedAre(alg, actions[..|actions| - 1]);
      StepEnqueues(alg, Run(alg, actions[..|actions| - 1]).value, actions[|actions| - 1]);
    }
  }

  /** Conservation: after any run in which the entry being sent is never removed, the entries settled so
      far followed by those still queued are the queued ones minus the removed ones, in order, and
      every deferred is settled at most once. */
  lemma {:induction false} Conservation(alg: RetryAlgorithm, actions: seq<Action>)
    requires Run(alg, actions).Some?
    ensures var q := Run(alg, actions).value.queue;
            q.history.settled + Ids(q.entries) == Keep(PushesOf(actions), q.history.removed) &&
            Distinct(q.history.settled)
  {
    RunKeeps(alg, actions);
    EnqueuedAre(alg, actions);
    DistinctParts(Run(alg, actions).value.queue);
  }

  /** Progress: a queue is active exactly when it has one outstanding continuation, and while there is
      a process function no queue with entries is idle. */
  lemma {:induction false} NeverIdle(alg: RetryAlgorithm, actions: seq<Action>)
    requires Run(alg, actions).Some?
    ensures var s := Run(alg, actions).value;
            (s.queue.active <==> |s.queue.continuations| == 1) && |s.queue.continuations| <= 1 &&
            (s.running && s.queue.entries != [] ==> |s.queue.continuations| == 1)
  {
    RunKeeps(alg, actions);
  }

  function Outcome(h: History, id: EntryId): Option<bool> {
    if id in h.outcome then Some(h.outcome[id]) else None
  }

  /** The reply to a send, upon which the process function will be called again for the same entry. */
  predicate Retries(alg: RetryAlgorithm, q: Queue, reply: Action) {
    reply.Rejected? && Sending(q, reply.i) && WaitFor(alg, q, q.continuations[reply.i].entry, reply.err) != GIVE_UP
  }

  /** The condition on removals is exact: while an entry is being sent, removing an event and then getting
      the reply, whichever it is, conserves the queue if and only if the entry being sent is spared or the
      reply leads to a retry; and then the whole invariant holds. */
  lemma {:induction false} RemovalIsSafeExactly(alg: RetryAlgorithm, actions: seq<Action>, event: EventId, reply: Action)
    requires Run(alg, actions).Some? && Sending(Run(alg, actions).value.queue, 0)
    requires (reply.Resolved? || reply.Rejected?) && reply.i == 0
    ensures var s := Run(alg, actions).value;
            var t := Step(alg, Step(alg, s, DoRemove(event)), reply);
            (Conserved(t.queue) <==> SparesInFlight(s.queue, event) || Retries(alg, s.queue, reply)) &&
            (Conserved(t.queue) ==> Inv(t))
  {
    RunKeeps(alg, actions);
    var s := Run(alg, actions).value;
    if SparesInFlight(s.queue, event) {
      RemoveKeeps(alg, s, event);
      StepKeeps(alg, Step(alg, s, DoRemove(event)), reply);
    } else if Retries(alg, s.queue, reply) {
      RetriedKeeps(alg, s, event, reply.err);
    } else {
      LostAnyhow(alg, s, event, reply);
    }
  }

  lemma RetriedIs(alg: RetryAlgorithm, q: Queue, err: SendError)
    requires |q.continuations| == 1 && Sending(q, 0) && WaitFor(alg, q, q.continuations[0].entry, err) != GIVE_UP
    ensures var t := Errored(alg, q, 0, err);
            t.entries == q.entries && t.active == q.active && t.history == q.history.(failures := t.history.failures) &&
            t.continuations == [Retry(WaitFor(alg, q, q.continuations[0].entry, err))]
  {
  }

  lemma GivenUpIs(alg: RetryAlgorithm, q: Queue, err: SendError)
    requires |q.continuations| == 1 && Sending(q, 0) && WaitFor(alg, q, q.continuations[0].entry, err) == GIVE_UP
    ensures var t, id := Errored(alg, q, 0, err), q.continuations[0].entry.id;
            Outcome(t.history, id) == Some(false) && t.entries == (if q.entries == [] then [] else q.entries[1..]) &&
            t.continuations == if |q.entries| > 1 then [Send(q.entries[1])] else []
  {
  }

  lemma RetriedKeeps(alg: RetryAlgorithm, s: State, event: EventId, err: SendError)
    requires Inv(s) && Sending(s.queue, 0) && Retries(alg, s.queue, Rejected(0, err))
    ensures Inv(Step(alg, Step(alg, s, DoRemove(event)), Rejected(0, err)))
  {
    RemovedConserves(s.queue, event);
    RetriedIs(alg, Remove(s.queue, event), err);
  }

  lemma RemovedConserves(q: Queue, event: EventId)
    requires Distinct(q.history.enqueued) && Conserved(q)
    requires forall r :: r in q.history.removed ==> r in q.history.enqueued
    ensures var t := Remove(q, event);
            Conserved(t) && t.history.enqueued == q.history.enqueued &&
            forall r :: r in t.history.removed ==> r in t.history.enqueued
  {
    var i := Find(q.entries, event);
    if i < |q.entries| {
      RemoveConserves(q, i);
    }
  }

  lemma LostAnyhow(alg: RetryAlgorithm, s: State, event: EventId, reply: Action)
    requires Inv(s) && Sending(s.queue, 0) && !SparesInFlight(s.queue, event)
    requires (reply.Resolved? || reply.Rejected?) && reply.i == 0 && !Retries(alg, s.queue, reply)
    ensures !Conserved(Step(alg, Step(alg, s, DoRemove(event)), reply).queue)
  {
    var r := Remove(s.queue, event);
    InFlightLost(s.queue, event, reply.Resolved?);
    if reply.Rejected? {
      var lost, t := Settle(r, 0, false), Errored(alg, r, 0, reply.err);
      assert t.entries == lost.entries && t.history.settled == lost.history.settled;
    }
  }

  /** The removed entry is settled all the same, and the next one is shifted out in its place. */
  lemma InFlightLost(q: Queue, event: EventId, ok: bool)
    requires OneContinuation(q) && Sending(q, 0) && !SparesInFlight(q, event)
    ensures !Conserved(Settle(Remove(q, event), 0, ok))
    ensures |q.entries| > 1 && q.entries[1].id !in q.history.settled && Distinct(Ids(q.entries)) ==>
              q.entries[1].id !in Ids(Settle(Remove(q, event), 0, ok).entries) &&
              q.entries[1].id !in Settle(Remove(q, event), 0, ok).history.settled
  {
    var x, t := q.continuations[0].entry.id, Settle(Remove(q, event), 0, ok);
    assert x in t.history.removed;
    assert t.history.settled == q.history.settled + [x];
    KeepMembers(t.history.enqueued, t.history.removed, x);
    assert (t.history.settled + Ids(t.entries))[|q.history.settled|] == x;
    if |q.entries| > 1 && Distinct(Ids(q.entries)) {
      assert Ids(q.entries)[0] == q.entries[0].id && Ids(q.entries)[1] == q.entries[1].id;
      assert Find(q.entries, event) == 0 by { OnlyHead(q, event); }
      assert t.entries == q.entries[2..];
      assert forall i :: 0 <= i < |t.entries| ==> Ids(t.entries)[i] == Ids(q.entries)[i + 2];
    }
  }

  lemma OnlyHead(q: Queue, event: EventId)
    requires OneContinuation(q) && Sending(q, 0) && !SparesInFlight(q, event) && Distinct(Ids(q.entries))
    ensures Find(q.entries, event) == 0
  {
    var i := Find(q.entries, event);
    assert q.entries[i] == q.entries[0];
    assert Ids(q.entries)[i] == Ids(q.entries)[0];
  }

  // ---------- the retry bound ----------

  /** What the default retry algorithm answered to the failures of one entry, one after the other. */
  ghost predicate Answered(event: EventId, failures: seq<Failure>) {
    forall k :: 0 <= k < |failures| ==>
      failures[k].wait == RetryBackoffRatelimit(event, k + 1, failures[k].error)
  }

  /** The server said how long to wait. */
  predicate RateLimited(f: Failure) {
    f.error.name == LimitExceeded && f.error.retryAfterMs != 0
  }

  /** A wait that the exponential backoff chose. */
  predicate BackedOff(f: Failure) {
    f.wait != GIVE_UP && !RateLimited(f)
  }

  function Backoffs(failures: seq<Failure>): nat {
    if failures == [] then 0 else
      Backoffs(failures[..|failures| - 1]) + if BackedOff(failures[|failures| - 1]) then 1 else 0
  }

  function BackoffMs(failures: seq<Failure>): int {
    if failures == [] then 0 else
      var last := failures[|failures| - 1];
      BackoffMs(failures[..|failures| - 1]) + if BackedOff(last) then last.wait else 0
  }

  /** All that the first `n` attempts can wait for: 2, 4, 8 and 16 seconds. */
  function Budget(n: nat): nat {
    if n == 0 then 0 else if n > 4 then Budget(n - 1) else Budget(n - 1) + 1000 * Pow2(n)
  }

  lemma BudgetIsThirtySeconds(n: nat)
    ensures Budget(n) <= Budget(4) == 30000
  {
    assert Pow2(1) == 2 && Pow2(2) == 4 && Pow2(3) == 8 && Pow2(4) == 16;
    assert Budget(1) == 2000 && Budget(2) == 6000 && Budget(3) == 14000;
    if n > 4 {
      BudgetIsThirtySeconds(n - 1);
    }
  }

  /** Whatever the errors are, and however they are mixed with rate limits: four waits, thirty seconds. */
  lemma {:induction false} BackoffBounded(event: EventId, failures: seq<Failure>)
    requires Answered(event, failures)
    ensures Backoffs(failures) <= if |failures| < 4 then |failures| else 4
    ensures 0 <= BackoffMs(failures) <= Budget(|failures|)
  {
    if failures != [] {
      var n := |failures| - 1;
      BackoffBounded(event, failures[..n]);
      assert failures[n].wait == RetryBackoffRatelimit(event, n + 1, failures[n].error);
    }
  }

  ghost predicate GaveUp(failures: seq<Failure>) {
    failures != [] && failures[|failures| - 1].wait == GIVE_UP
  }

  ghost predicate InFlight(q: Queue, id: EntryId) {
    exists i :: 0 <= i < |q.continuations| && q.continuations[i].Send? && q.continuations[i].entry.id == id
  }

  /** The books on one entry: its counter counts the failures, giving up is final and means that the deferred is
      rejected, and every call of the process function has failed but one that is under way or resolved. */
  ghost predicate AccountedAs(q: Queue, id: EntryId, flying: bool, outcome: Option<bool>) {
    var failures, sends := Failures(q.history, id), Sends(q.history, id);
    && Attempts(q, id) == |failures|
    && (forall event :: Answered(event, failures))
    && (forall k :: 0 <= k < |failures| - 1 ==> failures[k].wait != GIVE_UP)
    && (GaveUp(failures) <==> outcome == Some(false))
    && sends == |failures| + (if flying || outcome == Some(true) then 1 else 0)
    && !(flying && outcome.Some?)
    && (sends > 0 || failures != [] ==> id in q.history.enqueued)
  }

  ghost predicate Accounted(q: Queue, id: EntryId) {
    && AccountedAs(q, id, InFlight(q, id), Outcome(q.history, id))
    && (Outcome(q.history, id).Some? <==> id in q.history.settled)
  }

  /** The head of a queue may be sent if it has not been settled and nothing is in flight. */
  lemma ProcessAccounts(q: Queue, id: EntryId)
    requires Accounted(q, id) && q.continuations == []
    requires q.entries != [] ==> q.entries[0].id !in q.history.settled && q.entries[0].id in q.history.enqueued
    ensures Accounted(Process(q), id)
  {
    if q.entries != [] {
      var t := Process(q);
      assert t.continuations[0] == Send(q.entries[0]);
      assert !InFlight(q, id);
      assert InFlight(t, id) <==> q.entries[0].id == id;
    }
  }

  lemma HeadIsNew(q: Queue)
    requires Distinct(q.history.enqueued) && Conserved(q) && q.entries != []
    ensures q.entries[0].id !in q.history.settled && q.entries[0].id in q.history.enqueued
  {
    DistinctParts(q);
    var all := q.history.settled + Ids(q.entries);
    assert all[|q.history.settled|] == q.entries[0].id;
    KeepMembers(q.history.enqueued, q.history.removed, q.entries[0].id);
  }

  /** The entry that was sent is settled. */
  lemma SettleAccounts(s: State, i: nat, ok: bool, id: EntryId)
    requires Inv(s) && Sending(s.queue, i)
    requires if id == s.queue.continuations[i].entry.id then AccountedAs(s.queue, id, false, Some(ok))
             else Accounted(s.queue, id)
    ensures Accounted(Settle(s.queue, i, ok), id)
  {
    var q, x := s.queue, s.queue.continuations[i].entry.id;
    SettleKeeps(s, i, ok);
    var shifted := Shift(Fired(q, i), x, ok);
    assert i == 0 && shifted.continuations == [];
    ShiftAccounts(q, x, ok, id);
    if shifted.entries != [] {
      HeadIsNew(Settle(q, i, ok));
    }
    ProcessAccounts(shifted, id);
  }

  lemma ShiftAccounts(q: Queue, x: EntryId, ok: bool, id: EntryId)
    requires |q.continuations| == 1 && q.continuations[0].Send? && q.continuations[0].entry.id == x
    requires if id == x then AccountedAs(q, id, false, Some(ok)) else Accounted(q, id)
    ensures Accounted(Shift(Fired(q, 0), x, ok), id)
  {
    var shifted := Shift(Fired(q, 0), x, ok);
    assert shifted.history.settled[|q.history.settled|] == x;
    forall r | r in q.history.settled ensures r in shifted.history.settled {
    }
    assert !InFlight(shifted, id);
    if id != x {
      assert !InFlight(q, id);
      assert id in shifted.history.settled ==> id in q.history.settled;
    }
  }

  /** One more failure of the entry that was sent. */
  lemma FailAccounts(q: Queue, entry: Entry, err: SendError, id: EntryId)
    requires Accounted(q, id)
    requires id == entry.id ==> InFlight(q, id)
    ensures var wait := WaitFor(RetryBackoffRatelimit, q, entry, err);
            var failed := Fail(q, entry.id, Failure(err, wait));
            if id == entry.id then AccountedAs(failed, id, false, if wait == GIVE_UP then Some(false) else None)
            else Accounted(failed, id)
  {
    var wait := WaitFor(RetryBackoffRatelimit, q, entry, err);
    var failed := Fail(q, entry.id, Failure(err, wait));
    if id == entry.id {
      var before, after := Failures(q.history, id), Failures(failed.history, id);
      assert after == before + [Failure(err, wait)];
      assert !GaveUp(before);
      forall event ensures Answered(event, after) {
        assert Answered(event, before);
      }
    } else {
      assert InFlight(failed, id) <==> InFlight(q, id);
    }
  }

  lemma StepAccounts(s: State, a: Action, id: EntryId)
    requires Inv(s) && Allowed(s, a) && Accounted(s.queue, id)
    ensures Accounted(Step(RetryBackoffRatelimit, s, a).queue, id)
  {
    var q := s.queue;
    match a
    case DoPush(e) => PushAccounts(s, e, id);
    case DoRemove(event) =>
      assert InFlight(Remove(q, event), id) <==> InFlight(q, id);
    case StartQueues => StartAccounts(q, id);
    case StopQueues =>
    case Resolved(i) =>
      if q.continuations[i].entry.id == id {
        assert InFlight(q, id);
      }
      SettleAccounts(s, i, true, id);
    case Rejected(i, err) => RejectedAccounts(s, i, err, id);
    case TimerFired(i) =>
      assert i == 0 && Fired(q, i).continuations == [];
      assert !InFlight(q, id) && !InFlight(Fired(q, i), id);
      if q.entries != [] {
        HeadIsNew(q);
      }
      ProcessAccounts(Fired(q, i), id);
  }

  lemma StartAccounts(q: Queue, id: EntryId)
    requires Distinct(q.history.enqueued) && Conserved(q) && OneContinuation(q) && Accounted(q, id)
    ensures Accounted(Start(q), id)
  {
    if !q.active && q.entries != [] {
      HeadIsNew(q);
      assert InFlight(q.(active := true), id) <==> InFlight(q, id);
      ProcessAccounts(q.(active := true), id);
    }
  }

  lemma PushAccounts(s: State, e: Entry, id: EntryId)
    requires Inv(s) && e.id !in s.queue.history.enqueued && Accounted(s.queue, id)
    ensures Accounted(Push(s.queue, e, s.running), id)
  {
    var pushed := Append(s.queue, e);
    assert InFlight(pushed, id) <==> InFlight(s.queue, id);
    assert Accounted(pushed, id);
    if s.running {
      PushKeeps(RetryBackoffRatelimit, s.(running := false), e);
      StartAccounts(pushed, id);
    }
  }

  lemma RejectedAccounts(s: State, i: nat, err: SendError, id: EntryId)
    requires Inv(s) && Sending(s.queue, i) && Accounted(s.queue, id)
    ensures Accounted(Errored(RetryBackoffRatelimit, s.queue, i, err), id)
  {
    var q := s.queue;
    var entry := q.continuations[i].entry;
    var wait := WaitFor(RetryBackoffRatelimit, q, entry, err);
    var failed := Fail(q, entry.id, Failure(err, wait));
    if id == entry.id {
      assert InFlight(q, id);
    }
    FailAccounts(q, entry, err, id);
    if wait == GIVE_UP {
      SettleAccounts(s.(queue := failed), i, false, id);
    } else {
      var t := Errored(RetryBackoffRatelimit, q, i, err);
      assert t == failed.(continuations := [Retry(wait)]);
      assert !InFlight(t, id);
      if id != entry.id {
        assert !InFlight(failed, id);
      }
    }
  }

  /** Over any run with the default retry algorithm: for every entry, the attempts counter, the calls of the
      process function, the failures and the outcome agree. */
  lemma {:induction false} RunAccounts(actions: seq<Action>, id: EntryId)
    requires Run(RetryBackoffRatelimit, actions).Some?
    ensures Accounted(Run(RetryBackoffRatelimit, actions).value.queue, id)
  {
    if actions != [] {
      var before := actions[..|actions| - 1];
      RunAccounts(before, id);
      RunKeeps(RetryBackoffRatelimit, before);
      StepAccounts(Run(RetryBackoffRatelimit, before).value, actions[|actions| - 1], id);
    }
  }

  // ---------- what becomes of an entry ----------

  /** No retry can help: the server refused, there is no connection, or the event is too large. */
  predicate Permanent(err: SendError) {
    err.httpStatus in {400, 401, 403} || err.corsRejected || err.name == TooLarge
  }

  /** What the documentation promises for the `k`-th failure, counted from zero. */
  predicate WaitsAsPromised(f: Failure, k: nat) {
    if Permanent(f.error) then f.wait == GIVE_UP
    else if RateLimited(f) then f.wait == f.error.retryAfterMs
    else f.wait == if k < 4 then [2000, 4000, 8000, 16000][k] else GIVE_UP
  }

  lemma AnswerIsPromised(event: EventId, k: nat, err: SendError)
    ensures WaitsAsPromised(Failure(err, RetryBackoffRatelimit(event, k + 1, err)), k)
  {
    assert Pow2(1) == 2 && Pow2(2) == 4 && Pow2(3) == 8 && Pow2(4) == 16;
  }

  /** The failure after which an entry is given up, if it is the `k`-th: it is permanent, or at least the fifth
      and without a waiting time from the server (or the server's time is the number that means giving up). */
  predicate IsLast(f: Failure, k: nat) {
    Permanent(f.error) || (if RateLimited(f) then f.error.retryAfterMs == GIVE_UP else k >= 4)
  }

  /** Retries over whole runs with the default retry algorithm, exactly. A deferred is rejected if and only if the
      entry's newest failure is one after which it is given up, and there was none such before; all other
      failures are waited for as promised; and the process function was called once for each failure,
      and once more if that call is under way or has resolved the deferred. */
  lemma {:induction false} RetriesExactly(actions: seq<Action>, id: EntryId)
    requires Run(RetryBackoffRatelimit, actions).Some?
    ensures var q := Run(RetryBackoffRatelimit, actions).value.queue;
            var failures, n := Failures(q.history, id), |Failures(q.history, id)|;
            && (Outcome(q.history, id) == Some(false) <==> n > 0 && IsLast(failures[n - 1], n - 1))
            && (forall k :: 0 <= k < n - 1 ==> !IsLast(failures[k], k))
            && (forall k :: 0 <= k < n ==> WaitsAsPromised(failures[k], k))
            && Sends(q.history, id) == n + (if InFlight(q, id) || Outcome(q.history, id) == Some(true) then 1 else 0)
  {
    RunAccounts(actions, id);
    var failures := Failures(Run(RetryBackoffRatelimit, actions).value.queue.history, id);
    var event: EventId :| true;
    assert Answered(event, failures);
    forall k | 0 <= k < |failures|
      ensures WaitsAsPromised(failures[k], k) && (failures[k].wait == GIVE_UP <==> IsLast(failures[k], k))
    {
      AnswerIsPromised(event, k, failures[k].error);
    }
  }

  /** What a rejection leads to, in terms of the error and of how often the entry has failed before: if this
      failure is its last one its deferred is rejected and the next entry is sent, if there is one; else the
      queue stays as it is, and a timer is set for as long as promised. */
  lemma {:induction false} RejectionExactly(actions: seq<Action>, err: SendError)
    requires Run(RetryBackoffRatelimit, actions).Some? && Sending(Run(RetryBackoffRatelimit, actions).value.queue, 0)
    ensures var s := Run(RetryBackoffRatelimit, actions).value;
            var q, t := s.queue, Step(RetryBackoffRatelimit, s, Rejected(0, err)).queue;
            var n := |Failures(q.history, q.continuations[0].entry.id)|;
            if IsLast(Failure(err, 0), n)
            then Outcome(t.history, q.continuations[0].entry.id) == Some(false) && q.entries != [] &&
                 t.entries == q.entries[1..] && t.continuations == if |q.entries| > 1 then [Send(q.entries[1])] else []
            else t.entries == q.entries && t.history.settled == q.history.settled && |t.continuations| == 1 &&
                 t.continuations[0].Retry? && WaitsAsPromised(Failure(err, t.continuations[0].waitTimeMs), n)
  {
    RunKeeps(RetryBackoffRatelimit, actions);
    var s := Run(RetryBackoffRatelimit, actions).value;
    var q, entry := s.queue, s.queue.continuations[0].entry;
    RunAccounts(actions, entry.id);
    var n, wait := |Failures(q.history, entry.id)|, WaitFor(RetryBackoffRatelimit, q, entry, err);
    AnswerIsPromised(entry.event, n, err);
    if wait == GIVE_UP {
      GivenUpIs(RetryBackoffRatelimit, q, err);
    } else {
      RetriedIs(RetryBackoffRatelimit, q, err);
    }
  }

  ghost predicate Temporary(failures: seq<Failure>) {
    forall k :: 0 <= k < |failures| ==> !Permanent(failures[k].error) && !RateLimited(failures[k])
  }

  lemma {:induction false} TemporaryWaits(failures: seq<Failure>)
    requires Temporary(failures) && |failures| <= 5
    requires forall k :: 0 <= k < |failures| ==> WaitsAsPromised(failures[k], k)
    ensures BackoffMs(failures) == [0, 2000, 6000, 14000, 30000, 30000][|failures|]
  {
    if failures != [] {
      var n := |failures| - 1;
      TemporaryWaits(failures[..n]);
      assert WaitsAsPromised(failures[n], n);
    }
  }

  /** In particular an event whose failures are all temporary, and without waiting times from the server, is
      given up after exactly five calls, and after thirty seconds of waiting. */
  lemma FiveCalls(actions: seq<Action>, id: EntryId)
    requires Run(RetryBackoffRatelimit, actions).Some?
    requires Temporary(Failures(Run(RetryBackoffRatelimit, actions).value.queue.history, id))
    ensures var h := Run(RetryBackoffRatelimit, actions).value.queue.history;
            var failures := Failures(h, id);
            Sends(h, id) <= 5 && |failures| <= 5 &&
            (Outcome(h, id) == Some(false) <==> |failures| == 5) &&
            (Outcome(h, id) == Some(false) ==> Sends(h, id) == 5 && BackoffMs(failures) == 30000)
  {
    RetriesExactly(actions, id);
    var q := Run(RetryBackoffRatelimit, actions).value.queue;
    var failures, n := Failures(q.history, id), |Failures(q.history, id)|;
    assert n > 0 ==> (IsLast(failures[n - 1], n - 1) <==> n >= 5);
    assert n > 5 ==> IsLast(failures[4], 4);
    RunAccounts(actions, id);
    TemporaryWaits(failures);
  }

  /** Retry bound, over whole runs with the default retry algorithm: for each entry the exponential
      backoff waits at most four times and at most thirty seconds in all, also when it is mixed with
      rate limits; and if the server never says how long to wait, the process function is called at
      most five times. */
  lemma {:induction false} RetryBound(actions: seq<Action>, id: EntryId)
    requires Run(RetryBackoffRatelimit, actions).Some?
    ensures var h := Run(RetryBackoffRatelimit, actions).value.queue.history;
            Backoffs(Failures(h, id)) <= 4 && BackoffMs(Failures(h, id)) <= 30000 &&
            ((forall k :: 0 <= k < |Failures(h, id)| ==> !RateLimited(Failures(h, id)[k])) ==> Sends(h, id) <= 5)
  {
    RunAccounts(actions, id);
    var q := Run(RetryBackoffRatelimit, actions).value.queue;
    var failures := Failures(q.history, id);
    var event: EventId :| true;
    assert Answered(event, failures);
    BackoffBounded(event, failures);
    BudgetIsThirtySeconds(|failures|);
    if forall k :: 0 <= k < |failures| ==> !RateLimited(failures[k]) {
      NoMoreThanFive(event, q, id);
    }
  }

  lemma NoMoreThanFive(event: EventId, q: Queue, id: EntryId)
    requires Accounted(q, id)
    requires forall k :: 0 <= k < |Failures(q.history, id)| ==> !RateLimited(Failures(q.history, id)[k])
    ensures Sends(q.history, id) <= 5
  {
    var failures := Failures(q.history, id);
    assert Answered(event, failures);
    if |failures| >= 5 {
      assert failures[4].wait == GIVE_UP;
    }
    assert |failures| <= 5 && (|failures| == 5 ==> GaveUp(failures));
  }
}
