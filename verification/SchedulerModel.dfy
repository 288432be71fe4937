/** One queue of src/scheduler.js: entries are sent one after the other, with retries. The process
    function's promises and the retry timers are continuations that fire in later steps. */
module SchedulerModel {
  import opened Common

  type EventId(==, !new, 0)

  /** An entry of a queue, identified by its deferred. */
  type EntryId = nat

  datatype Entry = Entry(id: EntryId, event: EventId)

  // ---------- the retry algorithm ----------

  datatype ErrorName = TooLarge | LimitExceeded | OtherError

  /** What the process function rejected with; `retryAfterMs` is zero if the server did not say. */
  datatype SendError = SendError(httpStatus: int, corsRejected: bool, name: ErrorName, retryAfterMs: int)

  /** Given an event, the number of failed attempts and the last error: how many milliseconds to wait
      before the next attempt, or -1 to give up. */
  type RetryAlgorithm = (EventId, nat, SendError) -> int

  const GIVE_UP := -1

  function Pow2(n: nat): nat {
    if n == 0 then 1 else 2 * Pow2(n - 1)
  }

  /** `MatrixScheduler.RETRY_BACKOFF_RATELIMIT`, the default retry algorithm. */
  function RetryBackoffRatelimit(event: EventId, attempts: nat, err: SendError): int {
    if err.httpStatus == 400 || err.httpStatus == 403 || err.httpStatus == 401 then GIVE_UP
    else if err.corsRejected || err.name == TooLarge then GIVE_UP
    else if err.name == LimitExceeded && err.retryAfterMs != 0 then err.retryAfterMs
    else if attempts > 4 then GIVE_UP
    else 1000 * Pow2(attempts)
  }

  // ---------- a queue ----------

  /** What is outstanding: a call of the process function for an entry, or a retry timer. */
  datatype Continuation = Send(entry: Entry) | Retry(waitTimeMs: int)

  /** A rejection of the process function, and what the retry algorithm said to it. */
  datatype Failure = Failure(error: SendError, wait: int)

  datatype History = History(
    enqueued: seq<EntryId>,
    removed: set<EntryId>,
    settled: seq<EntryId>,                 // deferreds resolved or rejected, in order
    outcome: map<EntryId, bool>,           // resolved or rejected
    sends: map<EntryId, nat>,              // calls of the process function
    failures: map<EntryId, seq<Failure>>)

  datatype Queue = Queue(
    entries: seq<Entry>,
    active: bool,
    continuations: seq<Continuation>,
    attempts: map<EntryId, nat>,
    history: History)

  const NO_HISTORY := History([], {}, [], map[], map[], map[])
  const EMPTY_QUEUE := Queue([], false, [], map[], NO_HISTORY)

  function Ids(entries: seq<Entry>): (ids: seq<EntryId>)
    ensures |ids| == |entries|
    ensures forall i :: 0 <= i < |entries| ==> ids[i] == entries[i].id
  {
    seq(|entries|, i requires 0 <= i < |entries| => entries[i].id)
  }

  function DropAt<T>(s: seq<T>, i: nat): seq<T>
    requires i < |s|
  {
    s[..i] + s[i + 1..]
  }

  function Attempts(q: Queue, id: EntryId): nat {
    if id in q.attempts then q.attempts[id] else 0
  }

  function Sends(h: History, id: EntryId): nat {
    if id in h.sends then h.sends[id] else 0
  }

  function Failures(h: History, id: EntryId): seq<Failure> {
    if id in h.failures then h.failures[id] else []
  }

  /** `_processQueue`: sends the head, or marks an empty queue as inactive. */
  function Process(q: Queue): Queue {
    if q.entries == [] then q.(active := false)
    else
      var id := q.entries[0].id;
      q.(continuations := q.continuations + [Send(q.entries[0])],
         history := q.history.(sends := q.history.sends[id := Sends(q.history, id) + 1]))
  }

  /** `_startProcessingQueues` for one queue. */
  function Start(q: Queue): Queue {
    if !q.active && q.entries != [] then Process(q.(active := true)) else q
  }

  function Append(q: Queue, e: Entry): Queue {
    q.(entries := q.entries + [e], history := q.history.(enqueued := q.history.enqueued + [e.id]))
  }

  /** `queueEvent` */
  function Push(q: Queue, e: Entry, running: bool): Queue {
    if running then Start(Append(q, e)) else Append(q, e)
  }

  /** The index of the first entry with an event, or the length. */
  function Find(entries: seq<Entry>, event: EventId): (i: nat)
    ensures i <= |entries|
    ensures i < |entries| ==> entries[i].event == event
    ensures forall j :: 0 <= j < i ==> entries[j].event != event
  {
    if entries == [] || entries[0].event == event then 0
    else 1 + Find(entries[1..], event)
  }

  /** `removeEventFromQueue` */
  function Remove(q: Queue, event: EventId): Queue {
    var i := Find(q.entries, event);
    if i == |q.entries| then q
    else q.(entries := DropAt(q.entries, i),
            history := q.history.(removed := q.history.removed + {q.entries[i].id}))
  }

  function Fired(q: Queue, i: nat): Queue
    requires i < |q.continuations|
  {
    q.(continuations := DropAt(q.continuations, i))
  }

  function Sending(q: Queue, i: nat): bool {
    i < |q.continuations| && q.continuations[i].Send?
  }

  /** Whatever is at the head is shifted out, and the deferred of `id` is resolved or rejected. */
  function Shift(q: Queue, id: EntryId, ok: bool): Queue {
    q.(entries := if q.entries == [] then [] else q.entries[1..],
       history := q.history.(settled := q.history.settled + [id], outcome := q.history.outcome[id := ok]))
  }

  /** The process function resolved, or the retry algorithm gave up: the entry that was sent is
      settled, and processing goes on. */
  function Settle(q: Queue, i: nat, ok: bool): Queue
    requires Sending(q, i)
  {
    Process(Shift(Fired(q, i), q.continuations[i].entry.id, ok))
  }

  /** A failed attempt is counted. */
  function Fail(q: Queue, id: EntryId, failure: Failure): Queue {
    q.(attempts := q.attempts[id := Attempts(q, id) + 1],
       history := q.history.(failures := q.history.failures[id := Failures(q.history, id) + [failure]]))
  }

  function WaitFor(alg: RetryAlgorithm, q: Queue, entry: Entry, err: SendError): int {
    alg(entry.event, Attempts(q, entry.id) + 1, err)
  }

  /** The process function rejected. */
  function Errored(alg: RetryAlgorithm, q: Queue, i: nat, err: SendError): Queue
    requires Sending(q, i)
  {
    var entry := q.continuations[i].entry;
    var wait := WaitFor(alg, q, entry, err);
    var failed := Fail(q, entry.id, Failure(err, wait));
    if wait == GIVE_UP then Settle(failed, i, false)
    else Fired(failed, i).(continuations := DropAt(q.continuations, i) + [Retry(wait)])
  }

  // ---------- runs ----------

  datatype Action =
    | DoPush(entry: Entry)
    | DoRemove(event: EventId)
    | StartQueues              // a process function is set, or an event joins another queue
    | StopQueues               // the process function is taken away
    | Resolved(i: nat)
    | Rejected(i: nat, err: SendError)
    | TimerFired(i: nat)

  datatype State = State(queue: Queue, running: bool)

  predicate Enabled(s: State, a: Action) {
    match a
    case DoPush(e) => e.id !in s.queue.history.enqueued
    case Resolved(i) => Sending(s.queue, i)
    case Rejected(i, _) => Sending(s.queue, i)
    case TimerFired(i) => i < |s.queue.continuations| && s.queue.continuations[i].Retry?
    case _ => true
  }

  function Step(alg: RetryAlgorithm, s: State, a: Action): State
    requires Enabled(s, a)
  {
    match a
    case DoPush(e) => s.(queue := Push(s.queue, e, s.running))
    case DoRemove(event) => s.(queue := Remove(s.queue, event))
    case StartQueues => State(Start(s.queue), true)
    case StopQueues => s.(running := false)
    case Resolved(i) => s.(queue := Settle(s.queue, i, true))
    case Rejected(i, err) => s.(queue := Errored(alg, s.queue, i, err))
    case TimerFired(i) => s.(queue := Process(Fired(s.queue, i)))
  }

  /** The entry that a removal would take out is not the one being sent. */
  predicate SparesInFlight(q: Queue, event: EventId) {
    var i := Find(q.entries, event);
    i < |q.entries| ==> forall j :: 0 <= j < |q.continuations| ==> q.continuations[j] != Send(q.entries[i])
  }

  /** The steps of a run in which the entry being sent is never removed. */
  predicate Allowed(s: State, a: Action) {
    Enabled(s, a) && (a.DoRemove? ==> SparesInFlight(s.queue, a.event))
  }

  function Run(alg: RetryAlgorithm, actions: seq<Action>): Option<State> {
    if actions == [] then Some(State(EMPTY_QUEUE, false)) else
      var before := Run(alg, actions[..|actions| - 1]);
      if before.Some? && Allowed(before.value, actions[|actions| - 1])
      then Some(Step(alg, before.value, actions[|actions| - 1])) else None
  }
}
