/** src/scheduler.js as it is written: a scheduler with any number of named queues, whose methods and
    promise callbacks update fields in place. For each queue, every method is one step of
    `SchedulerModel`. */
module Scheduler {
  import opened Common
  import opened SchedulerModel

  type QueueName = string

  datatype MatrixEvent = MatrixEvent(id: EventId, isMessage: bool, hasAssociation: bool)

  /** `MatrixScheduler.QUEUE_MESSAGES`, the default queue algorithm: messages and events that belong
      to another event are queued, all other events are not. */
  function QueueMessages(event: MatrixEvent): Option<QueueName> {
    if event.isMessage || event.hasAssociation then Some("message") else None
  }

  function Get<K, V>(m: map<K, V>, k: K, default: V): V {
    if k in m then m[k] else default
  }

  class MatrixScheduler {
    const retryAlgorithm: RetryAlgorithm
    const queueAlgorithm: MatrixEvent -> Option<QueueName>
    var queues: map<QueueName, seq<Entry>>
    var activeQueues: seq<QueueName>
    var hasProcFn: bool

    // the entries' counters, and the closures that promises and timers will run
    var attempts: map<QueueName, map<EntryId, nat>>
    var continuations: map<QueueName, seq<Continuation>>
    var nextEntry: EntryId

    ghost var history: map<QueueName, History>

    ghost function QueueOf(name: QueueName): Queue
      reads this
    {
      Queue(Get(queues, name, []), name in activeQueues, Get(continuations, name, []),
            Get(attempts, name, map[]), Get(history, name, NO_HISTORY))
    }

    ghost function StateOf(name: QueueName): State
      reads this
    {
      State(QueueOf(name), hasProcFn)
    }

    ghost predicate Valid()
      reads this
    {
      && (forall i, j :: 0 <= i < j < |activeQueues| ==> activeQueues[i] != activeQueues[j])
      && (forall name, id :: name in history && id in history[name].enqueued ==> id < nextEntry)
    }

    /** Both algorithms are optional. */
    constructor (retryAlgorithm: Option<RetryAlgorithm>, queueAlgorithm: Option<MatrixEvent -> Option<QueueName>>)
      ensures Valid()
      ensures forall name :: StateOf(name) == State(EMPTY_QUEUE, false)
      ensures this.retryAlgorithm == Or<RetryAlgorithm>(retryAlgorithm, RetryBackoffRatelimit)
      ensures this.queueAlgorithm == Or<MatrixEvent -> Option<QueueName>>(queueAlgorithm, QueueMessages)
      ensures queueAlgorithm.None? ==>
                forall e :: this.queueAlgorithm(e) == if e.isMessage || e.hasAssociation then Some("message") else None
    {
      this.retryAlgorithm := Or<RetryAlgorithm>(retryAlgorithm, RetryBackoffRatelimit);
      this.queueAlgorithm := Or<MatrixEvent -> Option<QueueName>>(queueAlgorithm, QueueMessages);
      queues, activeQueues, hasProcFn := map[], [], false;
      attempts, continuations, nextEntry, history := map[], map[], 0, map[];
    }

    /** The event joins the queue that the queue algorithm names; the promise is that of its entry. */
    method QueueEvent(event: MatrixEvent) returns (promise: Option<EntryId>)
      requires Valid()
      modifies this
      ensures Valid() && hasProcFn == old(hasProcFn)
      ensures promise.None? <==> queueAlgorithm(event).None?
      ensures promise.None? ==> forall name :: QueueOf(name) == old(QueueOf(name))
      ensures promise.Some? ==>
                var action := DoPush(Entry(promise.value, event.id));
                var queued := queueAlgorithm(event).value;
                Enabled(old(StateOf(queued)), action) &&
                StateOf(queued) == Step(retryAlgorithm, old(StateOf(queued)), action)
      ensures promise.Some? ==>
                forall name :: Some(name) != queueAlgorithm(event) ==>
                  StateOf(name) == if hasProcFn then Step(retryAlgorithm, old(StateOf(name)), StartQueues)
                                   else old(StateOf(name))
    {
      var queueName := queueAlgorithm(event);
      if queueName.None? {
        return None;
      }
      var name, entry := queueName.value, Entry(nextEntry, event.id);
      queues := queues[name := Get(queues, name, []) + [entry]];
      nextEntry := nextEntry + 1;
      ghost var h := Get(history, name, NO_HISTORY);
      history := history[name := h.(enqueued := h.enqueued + [entry.id])];
      assert QueueOf(name) == Append(old(QueueOf(name)), entry);
      StartProcessingQueues();
      promise := Some(entry.id);
    }

    method RemoveEventFromQueue(event: MatrixEvent) returns (removed: bool)
      requires Valid()
      modifies this
      ensures Valid() && hasProcFn == old(hasProcFn)
      ensures forall name ::
                StateOf(name) == if Some(name) == queueAlgorithm(event)
                                 then Step(retryAlgorithm, old(StateOf(name)), DoRemove(event.id))
                                 else old(StateOf(name))
      ensures removed <==>
                queueAlgorithm(event).Some? &&
                exists e :: e in old(QueueOf(queueAlgorithm(event).value)).entries && e.event == event.id
    {
      var queueName := queueAlgorithm(event);
      if queueName.None? || queueName.value !in queues {
        return false;
      }
      var name := queueName.value;
      var entries := queues[name];
      var i := 0;
      while i < |entries| && entries[i].event != event.id
        invariant 0 <= i <= |entries|
        invariant forall j :: 0 <= j < i ==> entries[j].event != event.id
      {
        i := i + 1;
      }
      assert i == Find(entries, event.id);
      removed := i < |entries|;
      if removed {
        assert entries[i] in entries;
        queues := queues[name := DropAt(entries, i)];
        ghost var h := Get(history, name, NO_HISTORY);
        history := history[name := h.(removed := h.removed + {entries[i].id})];
      }
    }

    /** A process function is given, or taken away. */
    method SetProcessFunction(given: bool)
      requires Valid()
      modifies this
      ensures Valid()
      ensures forall name ::
                StateOf(name) == Step(retryAlgorithm, old(StateOf(name)), if given then StartQueues else StopQueues)
    {
      hasProcFn := given;
      StartProcessingQueues();
    }

    method StartProcessingQueues()
      requires Valid()
      modifies this`activeQueues, this`continuations, this`history
      ensures Valid()
      ensures forall name :: QueueOf(name) == if hasProcFn then Start(old(QueueOf(name))) else old(QueueOf(name))
    {
      if !hasProcFn {
        return;
      }
      var todo := set name | name in queues && name !in activeQueues && |queues[name]| > 0;
      ghost var starting := todo;
      while todo != {}
        invariant Valid() && todo <= starting
        invariant forall name ::
                    QueueOf(name) == if name in starting - todo then Start(old(QueueOf(name))) else old(QueueOf(name))
        decreases todo
      {
        var name :| name in todo;
        todo := todo - {name};
        activeQueues := activeQueues + [name];
        assert QueueOf(name) == old(QueueOf(name)).(active := true);
        ProcessQueue(name);
      }
    }

    method ProcessQueue(name: QueueName)
      requires Valid()
      modifies this`activeQueues, this`continuations, this`history
      ensures Valid()
      ensures forall n :: QueueOf(n) == if n == name then Process(old(QueueOf(name))) else old(QueueOf(n))
    {
      var entries := Get(queues, name, []);
      if |entries| == 0 {
        var i := 0;
        while i < |activeQueues| && activeQueues[i] != name
          invariant 0 <= i <= |activeQueues|
          invariant forall j :: 0 <= j < i ==> activeQueues[j] != name
        {
          i := i + 1;
        }
        if i < |activeQueues| {
          Deactivated(activeQueues, i);
          activeQueues := DropAt(activeQueues, i);
        }
        return;
      }
      continuations := continuations[name := Get(continuations, name, []) + [Send(entries[0])]];
      ghost var h := Get(history, name, NO_HISTORY);
      history := history[name := h.(sends := h.sends[entries[0].id := Sends(h, entries[0].id) + 1])];
    }

    /** The process function of continuation `i` resolved. */
    method OnResolved(name: QueueName, i: nat)
      requires Valid() && Enabled(StateOf(name), Resolved(i))
      modifies this
      ensures Valid() && hasProcFn == old(hasProcFn)
      ensures StateOf(name) == Step(retryAlgorithm, old(StateOf(name)), Resolved(i))
      ensures forall n :: n != name ==> QueueOf(n) == old(QueueOf(n))
    {
      SettleHead(name, i, true);
    }

    /** Whatever is at the head is shifted out, the entry that was sent is settled, and processing goes on. */
    method SettleHead(name: QueueName, i: nat, ok: bool)
      requires Valid() && Sending(QueueOf(name), i)
      modifies this`queues, this`activeQueues, this`continuations, this`history
      ensures Valid()
      ensures forall n :: QueueOf(n) == if n == name then Settle(old(QueueOf(name)), i, ok) else old(QueueOf(n))
    {
      var entry := continuations[name][i].entry;
      continuations := continuations[name := DropAt(continuations[name], i)];
      if name in queues && |queues[name]| > 0 {
        queues := queues[name := queues[name][1..]];
      }
      ghost var h := Get(history, name, NO_HISTORY);
      history := history[name := h.(settled := h.settled + [entry.id], outcome := h.outcome[entry.id := ok])];
      assert QueueOf(name) == Shift(Fired(old(QueueOf(name)), i), entry.id, ok);
      ProcessQueue(name);
    }

    /** The process function of continuation `i` rejected. */
    method OnRejected(name: QueueName, i: nat, err: SendError)
      requires Valid() && Enabled(StateOf(name), Rejected(i, err))
      modifies this
      ensures Valid() && hasProcFn == old(hasProcFn)
      ensures StateOf(name) == Step(retryAlgorithm, old(StateOf(name)), Rejected(i, err))
      ensures forall n :: n != name ==> QueueOf(n) == old(QueueOf(n))
    {
      var entry := continuations[name][i].entry;
      var waitTimeMs := CountFailure(name, entry, err);
      if waitTimeMs == -1 {
        SettleHead(name, i, false);
      } else {
        continuations := continuations[name := DropAt(continuations[name], i) + [Retry(waitTimeMs)]];
      }
    }

    /** Counts a failed attempt and asks the retry algorithm when or if to try again. */
    method CountFailure(name: QueueName, entry: Entry, err: SendError) returns (waitTimeMs: int)
      requires Valid()
      modifies this`attempts, this`history
      ensures Valid()
      ensures waitTimeMs == WaitFor(retryAlgorithm, old(QueueOf(name)), entry, err)
      ensures forall n :: QueueOf(n) == if n == name then Fail(old(QueueOf(name)), entry.id, Failure(err, waitTimeMs))
                                        else old(QueueOf(n))
    {
      var counts := Get(attempts, name, map[]);
      attempts := attempts[name := counts[entry.id := Get(counts, entry.id, 0) + 1]];
      waitTimeMs := retryAlgorithm(entry.event, attempts[name][entry.id], err);
      ghost var h := Get(history, name, NO_HISTORY);
      history := history[name := h.(failures := h.failures[entry.id := Failures(h, entry.id) + [Failure(err, waitTimeMs)]])];
    }

    method OnTimer(name: QueueName, i: nat)
      requires Valid() && Enabled(StateOf(name), TimerFired(i))
      modifies this
      ensures Valid() && hasProcFn == old(hasProcFn)
      ensures StateOf(name) == Step(retryAlgorithm, old(StateOf(name)), TimerFired(i))
      ensures forall n :: n != name ==> QueueOf(n) == old(QueueOf(n))
    {
      continuations := continuations[name := DropAt(continuations[name], i)];
      assert QueueOf(name) == Fired(old(QueueOf(name)), i);
      ProcessQueue(name);
    }
  }

  /** Splicing a queue's name out of a list without duplicates removes that name and no other. */
  lemma Deactivated(names: seq<QueueName>, i: nat)
    requires i < |names| && forall j, k :: 0 <= j < k < |names| ==> names[j] != names[k]
    ensures forall j, k :: 0 <= j < k < |names| - 1 ==> DropAt(names, i)[j] != DropAt(names, i)[k]
    ensures forall n :: n in DropAt(names, i) <==> n in names && n != names[i]
  {
    var dropped := DropAt(names, i);
    forall n | n in names && n != names[i] ensures n in dropped {
      var j :| 0 <= j < |names| && names[j] == n;
      assert dropped[if j < i then j else j - 1] == n;
    }
    forall n | n in dropped ensures n in names && n != names[i] {
      var j :| 0 <= j < |dropped| && dropped[j] == n;
      assert n == names[if j < i then j else j + 1];
    }
  }
}
