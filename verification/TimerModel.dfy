/** The list of src/realtime-callbacks.js: callbacks by deadline, one real timer that is armed for the
    first of them, and callbacks that a run has taken from the list but not called yet. */
module TimerModel {
  import opened Common

  type Function(==, !new, 0)
  type Key = nat

  datatype Callback = Callback(runAt: int, key: Key, func: Function)

  /** The real timer: the time it is set for, and when it was armed. */
  datatype RealTimer = RealTimer(target: int, armedAt: int)

  const TIMER_CHECK_PERIOD_MS := 1000

  datatype Timers = Timers(
    list: seq<Callback>,         // _callbackList
    count: Key,                  // _count
    timer: Option<RealTimer>,     // what _realCallbackKey stands for
    toRun: seq<Callback>,        // callbacksToRun, from the next one to call
    ran: seq<Callback>,          // history: the callbacks called, in order
    cleared: seq<Key>)           // history: the keys cleared while listed

  const EMPTY := Timers([], 0, None, [], [], [])

  /** `_scheduleRealCallback` */
  function Schedule(list: seq<Callback>, now: int): Option<RealTimer> {
    if list == [] then None
    else Some(RealTimer(now + Min(list[0].runAt - now, TIMER_CHECK_PERIOD_MS), now))
  }

  /** How many callbacks at the start of the list are due by `time`. */
  function Due(list: seq<Callback>, time: int): (n: nat)
    ensures n <= |list|
    ensures forall i :: 0 <= i < n ==> list[i].runAt <= time
    ensures n < |list| ==> list[n].runAt > time
  {
    if list == [] || list[0].runAt > time then 0 else 1 + Due(list[1..], time)
  }

  lemma DueIs(list: seq<Callback>, time: int, n: nat)
    requires n <= |list| && (forall i :: 0 <= i < n ==> list[i].runAt <= time)
    requires n < |list| ==> list[n].runAt > time
    ensures n == Due(list, time)
  {
  }

  function Insert(list: seq<Callback>, cb: Callback): seq<Callback> {
    list[..Due(list, cb.runAt)] + [cb] + list[Due(list, cb.runAt)..]
  }

  /** The index of the callback with a key, or the length. */
  function IndexOf(list: seq<Callback>, key: Key): (i: nat)
    ensures i <= |list|
    ensures i < |list| ==> list[i].key == key
    ensures forall j :: 0 <= j < i ==> list[j].key != key
  {
    if list == [] || list[0].key == key then 0 else 1 + IndexOf(list[1..], key)
  }

  datatype Action =
    | Set(func: Function, delayMs: int, now: int, later: int)  // the clock is read twice
    | Clear(key: Key, now: int)
    | Fire(now: int, later: int)   // the real timer fires: due callbacks are taken from the list
    | Call                         // the next of them is called

  /** Only one thing runs at a time: the timer cannot fire while callbacks are being called. What a
      callback itself does comes between its call and the next one. */
  predicate Enabled(t: Timers, a: Action) {
    match a
    case Fire(_, _) => t.timer.Some? && t.toRun == []
    case Call => t.toRun != []
    case _ => true
  }

  function Step(t: Timers, a: Action): Timers
    requires Enabled(t, a)
  {
    match a
    case Set(func, delayMs, now, later) =>
      var cb := Callback(now + if delayMs < 0 then 0 else delayMs, t.count, func);
      var list := Insert(t.list, cb);
      t.(list := list, count := t.count + 1, timer := Schedule(list, later))
    case Clear(key, now) =>
      var i := IndexOf(t.list, key);
      if i == |t.list| then t else
        var list := t.list[..i] + t.list[i + 1..];
        t.(list := list, cleared := t.cleared + [key], timer := if i == 0 then Schedule(list, now) else t.timer)
    case Fire(now, later) =>
      var n := Due(t.list, now);
      t.(list := t.list[n..], toRun := t.list[..n], timer := Schedule(t.list[n..], later))
    case Call => t.(toRun := t.toRun[1..], ran := t.ran + [t.toRun[0]])
  }

  function Run(actions: seq<Action>): Option<Timers> {
    if actions == [] then Some(EMPTY) else
      var before := Run(actions[..|actions| - 1]);
      if before.Some? && Enabled(before.value, actions[|actions| - 1])
      then Some(Step(before.value, actions[|actions| - 1])) else None
  }

  // ---------- the invariant ----------

  /** Deadline first, then the order of registration. */
  ghost predicate Before(a: Callback, b: Callback) {
    a.runAt < b.runAt || (a.runAt == b.runAt && a.key < b.key)
  }

  ghost predicate Sorted(list: seq<Callback>) {
    forall i, j :: 0 <= i < j < |list| ==> Before(list[i], list[j])
  }

  ghost predicate Armed(t: Timers) {
    t.list != [] ==>
      t.timer.Some? && t.timer.value.target == Min(t.list[0].runAt, t.timer.value.armedAt + TIMER_CHECK_PERIOD_MS)
  }

  function Keys(list: seq<Callback>): (keys: seq<Key>)
    ensures |keys| == |list|
    ensures forall i :: 0 <= i < |list| ==> keys[i] == list[i].key
  {
    seq(|list|, i requires 0 <= i < |list| => list[i].key)
  }

  /** Where the keys that were handed out are: listed, about to be called, called or cleared. */
  ghost function Places(t: Timers): multiset<Key> {
    KeySet(t.list) + KeySet(t.toRun) + KeySet(t.ran) + multiset(t.cleared)
  }

  ghost predicate InOnePlace(t: Timers) {
    forall k: Key :: Places(t)[k] == if k < t.count then 1 else 0
  }

  ghost predicate Inv(t: Timers) {
    Sorted(t.list) && Sorted(t.toRun) && Armed(t) && InOnePlace(t)
  }

  ghost function KeySet(list: seq<Callback>): multiset<Key> {
    multiset(Keys(list))
  }

  lemma KeysAppend(a: seq<Callback>, b: seq<Callback>)
    ensures KeySet(a + b) == KeySet(a) + KeySet(b)
  {
    assert Keys(a + b) == Keys(a) + Keys(b);
  }

  lemma KeysOne(cb: Callback)
    ensures KeySet([cb]) == multiset{cb.key}
  {
    assert Keys([cb]) == [cb.key];
  }

  lemma KeysInsert(a: seq<Callback>, cb: Callback, b: seq<Callback>)
    ensures KeySet(a + [cb] + b) == KeySet(a + b) + multiset{cb.key}
  {
    KeysAppend(a + [cb], b);
    KeysAppend(a, [cb]);
    KeysAppend(a, b);
    KeysOne(cb);
  }

  lemma ListedIsOld(t: Timers, i: nat)
    requires InOnePlace(t) && i < |t.list|
    ensures t.list[i].key < t.count
  {
    assert Keys(t.list)[i] in KeySet(t.list);
    assert Places(t)[t.list[i].key] > 0;
  }

  lemma SortedParts(list: seq<Callback>, n: nat)
    requires Sorted(list) && n <= |list|
    ensures Sorted(list[..n]) && Sorted(list[n..])
  {
  }

  lemma SortedWithout(list: seq<Callback>, i: nat)
    requires Sorted(list) && i < |list|
    ensures Sorted(list[..i] + list[i + 1..])
  {
  }

  lemma SortedInsert(list: seq<Callback>, cb: Callback)
    requires Sorted(list)
    requires forall i :: 0 <= i < |list| ==> list[i].key < cb.key
    ensures Sorted(Insert(list, cb))
  {
    var n, result := Due(list, cb.runAt), Insert(list, cb);
    forall i | n <= i < |list| ensures Before(cb, list[i]) {
      AllLater(list, cb.runAt, i);
    }
    assert forall i :: 0 <= i < n ==> Before(list[i], cb);
    assert forall i :: 0 <= i < |result| ==>
      result[i] == if i < n then list[i] else if i == n then cb else list[i - 1];
  }

  /** From the first callback on that is not due, none is. */
  lemma AllLater(list: seq<Callback>, time: int, i: nat)
    requires Sorted(list) && Due(list, time) <= i < |list|
    ensures list[i].runAt > time
  {
    if Due(list, time) < i {
      assert Before(list[Due(list, time)], list[i]);
    }
  }

  /** The keys of two states are in the same places, but for new ones. */
  lemma SamePlaces(t: Timers, u: Timers)
    requires InOnePlace(t)
    requires if u.count == t.count then Places(u) == Places(t)
             else u.count == t.count + 1 && Places(u) == Places(t) + multiset{t.count}
    ensures InOnePlace(u)
  {
  }

  lemma InsertPlaces(t: Timers, cb: Callback, u: Timers)
    requires u.list == Insert(t.list, cb) && u.toRun == t.toRun && u.ran == t.ran && u.cleared == t.cleared
    ensures Places(u) == Places(t) + multiset{cb.key}
  {
    var n := Due(t.list, cb.runAt);
    KeysInsert(t.list[..n], cb, t.list[n..]);
    assert t.list == t.list[..n] + t.list[n..];
  }

  lemma RemovePlaces(t: Timers, i: nat, u: Timers)
    requires i < |t.list| && u.list == t.list[..i] + t.list[i + 1..]
    requires u.toRun == t.toRun && u.ran == t.ran && u.cleared == t.cleared + [t.list[i].key]
    ensures Places(u) == Places(t)
  {
    KeysInsert(t.list[..i], t.list[i], t.list[i + 1..]);
    assert t.list == t.list[..i] + [t.list[i]] + t.list[i + 1..];
  }

  lemma SetKeeps(t: Timers, func: Function, delayMs: int, now: int, later: int)
    requires Inv(t)
    ensures Inv(Step(t, Set(func, delayMs, now, later)))
  {
    var u := Step(t, Set(func, delayMs, now, later));
    var cb := Callback(now + if delayMs < 0 then 0 else delayMs, t.count, func);
    forall i | 0 <= i < |t.list| ensures t.list[i].key < cb.key {
      ListedIsOld(t, i);
    }
    SortedInsert(t.list, cb);
    InsertPlaces(t, cb, u);
    SamePlaces(t, u);
  }

  lemma ClearKeeps(t: Timers, key: Key, now: int)
    requires Inv(t)
    ensures Inv(Step(t, Clear(key, now)))
  {
    var u, i := Step(t, Clear(key, now)), IndexOf(t.list, key);
    if i < |t.list| {
      SortedWithout(t.list, i);
      RemovePlaces(t, i, u);
      SamePlaces(t, u);
      assert i > 0 ==> u.list[0] == t.list[0];
    }
  }

  lemma FireKeeps(t: Timers, now: int, later: int)
    requires Inv(t) && Enabled(t, Fire(now, later))
    ensures Inv(Step(t, Fire(now, later)))
  {
    var u, n := Step(t, Fire(now, later)), Due(t.list, now);
    SortedParts(t.list, n);
    assert t.list == t.list[..n] + t.list[n..];
    KeysAppend(t.list[..n], t.list[n..]);
    SamePlaces(t, u);
  }

  lemma CallKeeps(t: Timers)
    requires Inv(t) && t.toRun != []
    ensures Inv(Step(t, Call))
  {
    var u := Step(t, Call);
    SortedParts(t.toRun, 1);
    assert t.toRun == [t.toRun[0]] + t.toRun[1..];
    KeysAppend([t.toRun[0]], t.toRun[1..]);
    KeysAppend(t.ran, [t.toRun[0]]);
    SamePlaces(t, u);
  }

  lemma {:induction false} RunKeeps(actions: seq<Action>)
    requires Run(actions).Some?
    ensures Inv(Run(actions).value)
  {
    if actions != [] {
      var n := |actions| - 1;
      RunKeeps(actions[..n]);
      var t := Run(actions[..n]).value;
      match actions[n]
      case Set(func, delayMs, now, later) => SetKeeps(t, func, delayMs, now, later);
      case Clear(key, now) => ClearKeeps(t, key, now);
      case Fire(now, later) => FireKeeps(t, now, later);
      case Call => CallKeeps(t);
    }
  }

  // ---------- main results ----------

  /** After any sequence of steps, including those made inside callbacks, the list is sorted by deadline
      and then by order of registration, and as long as it is not empty a real timer is armed for the
      first deadline or for a second after it was armed, whichever comes first. */
  lemma {:induction false} SortedAndArmed(actions: seq<Action>)
    requires Run(actions).Some?
    ensures var t := Run(actions).value;
            Sorted(t.list) &&
            (t.list != [] && t.toRun == [] ==> forall now, later :: Enabled(t, Fire(now, later))) &&
            (t.list != [] ==>
               t.timer.Some? && t.timer.value.target == Min(t.list[0].runAt, t.timer.value.armedAt + 1000))
  {
    RunKeeps(actions);
  }

  /** When the real timer fires, exactly the callbacks that are due are taken from the list, in order. */
  lemma TakesExactlyTheDue(actions: seq<Action>, now: int, later: int)
    requires Run(actions).Some? && Enabled(Run(actions).value, Fire(now, later))
    ensures var t := Run(actions).value;
            var u := Step(t, Fire(now, later));
            Sorted(u.toRun) &&
            (forall cb :: cb in u.toRun <==> cb in t.list && cb.runAt <= now) &&
            (forall cb :: cb in u.list <==> cb in t.list && cb.runAt > now)
  {
    RunKeeps(actions);
    DueAreTaken(Run(actions).value, now, later);
  }

  lemma DueAreTaken(t: Timers, now: int, later: int)
    requires Inv(t) && Enabled(t, Fire(now, later))
    ensures var u := Step(t, Fire(now, later));
            Sorted(u.toRun) &&
            (forall cb :: cb in u.toRun <==> cb in t.list && cb.runAt <= now) &&
            (forall cb :: cb in u.list <==> cb in t.list && cb.runAt > now)
  {
    var u, n := Step(t, Fire(now, later)), Due(t.list, now);
    FireKeeps(t, now, later);
    assert t.list == u.toRun + u.list;
    forall i | 0 <= i < |u.list| ensures u.list[i].runAt > now {
      AllLater(t.list, now, n + i);
    }
  }

  lemma OnePlaceMeans(t: Timers, i: nat)
    requires InOnePlace(t) && i < |t.ran|
    ensures t.ran[i].key !in t.cleared
    ensures t.ran[i].key !in Keys(t.ran)[..i]
  {
    var keys, k := Keys(t.ran), t.ran[i].key;
    assert keys == keys[..i] + [keys[i]] + keys[i + 1..];
    assert multiset(keys)[k] == multiset(keys[..i])[k] + 1 + multiset(keys[i + 1..])[k];
    assert Places(t)[k] <= 1;
  }

  /** Over any run every callback is called at most once, and never if it was cleared while listed. */
  lemma CalledOnceUnlessCleared(actions: seq<Action>, i: nat)
    requires Run(actions).Some? && i < |Run(actions).value.ran|
    ensures var t := Run(actions).value;
            (forall j :: 0 <= j < i ==> t.ran[j].key != t.ran[i].key) && t.ran[i].key !in t.cleared
  {
    RunKeeps(actions);
    var t := Run(actions).value;
    OnePlaceMeans(t, i);
    forall j | 0 <= j < i ensures t.ran[j].key != t.ran[i].key {
      assert Keys(t.ran)[..i][j] == t.ran[j].key;
    }
  }

  /** And none is forgotten: once nothing is listed or about to be called, every key that was handed
      out has been called or cleared. */
  lemma NoneForgotten(actions: seq<Action>, key: Key)
    requires Run(actions).Some?
    requires Run(actions).value.list == [] && Run(actions).value.toRun == []
    requires key < Run(actions).value.count
    ensures var t := Run(actions).value;
            key in t.cleared || exists i :: 0 <= i < |t.ran| && t.ran[i].key == key
  {
    RunKeeps(actions);
    var t := Run(actions).value;
    assert Places(t)[key] == 1;
    if key !in t.cleared {
      assert multiset(t.cleared)[key] == 0;
      assert key in Keys(t.ran);
    }
  }

  // ---------- callbacks in terms of the calls that were made ----------

  /** The calls of `setTimeout` in a run, in order; each gets the next key. */
  function SetsOf(actions: seq<Action>): seq<Action> {
    if actions == [] then [] else
      var n := |actions| - 1;
      SetsOf(actions[..n]) + if actions[n].Set? then [actions[n]] else []
  }

  /** A callback is the one that was registered under its key, due when its delay has passed. */
  ghost predicate IsRegistered(actions: seq<Action>, cb: Callback) {
    cb.key < |SetsOf(actions)| && SetsOf(actions)[cb.key].Set? &&
    var call := SetsOf(actions)[cb.key];
    cb.func == call.func && cb.runAt == call.now + Max(0, call.delayMs)
  }

  /** The real timer has fired at or after the deadline of a callback. */
  ghost predicate IsPast(actions: seq<Action>, cb: Callback) {
    exists i :: 0 <= i < |actions| && actions[i].Fire? && cb.runAt <= actions[i].now
  }

  ghost predicate AreRegistered(list: seq<Callback>, actions: seq<Action>) {
    forall i :: 0 <= i < |list| ==> IsRegistered(actions, list[i])
  }

  ghost predicate ArePast(list: seq<Callback>, actions: seq<Action>) {
    forall i :: 0 <= i < |list| ==> IsPast(actions, list[i])
  }

  ghost predicate AllRegistered(t: Timers, actions: seq<Action>) {
    && t.count == |SetsOf(actions)|
    && AreRegistered(t.list, actions) && AreRegistered(t.toRun, actions) && AreRegistered(t.ran, actions)
    && ArePast(t.toRun, actions) && ArePast(t.ran, actions)
  }

  lemma StillRegistered(actions: seq<Action>, a: Action, list: seq<Callback>)
    ensures SetsOf(actions + [a]) == SetsOf(actions) + if a.Set? then [a] else []
    ensures AreRegistered(list, actions) ==> AreRegistered(list, actions + [a])
    ensures ArePast(list, actions) ==> ArePast(list, actions + [a])
  {
    var more := actions + [a];
    assert more[..|actions|] == actions;
    if ArePast(list, actions) {
      forall i | 0 <= i < |list| ensures IsPast(more, list[i]) {
        assert IsPast(actions, list[i]);
        var j :| 0 <= j < |actions| && actions[j].Fire? && list[i].runAt <= actions[j].now;
        assert more[j].Fire? && list[i].runAt <= more[j].now;
      }
    }
  }

  lemma StepRegisters(t: Timers, actions: seq<Action>, a: Action)
    requires Enabled(t, a) && AllRegistered(t, actions)
    ensures AllRegistered(Step(t, a), actions + [a])
  {
    var u, more := Step(t, a), actions + [a];
    StillRegistered(actions, a, t.list);
    StillRegistered(actions, a, t.toRun);
    StillRegistered(actions, a, t.ran);
    match a
    case Set(func, delayMs, now, _) =>
      assert IsRegistered(more, Callback(now + if delayMs < 0 then 0 else delayMs, t.count, func));
    case Fire(now, _) =>
      assert more[|actions|] == a;
      forall i | 0 <= i < |u.toRun| ensures IsPast(more, u.toRun[i]) {
        assert u.toRun[i].runAt <= more[|actions|].now;
      }
    case _ =>
  }

  /** Every callback that is listed, about to be called or called is one that was registered, with its function
      and its deadline; and it is taken from the list only when its deadline has passed. */
  lemma {:induction false} CallbacksAreRegistered(actions: seq<Action>)
    requires Run(actions).Some?
    ensures AllRegistered(Run(actions).value, actions)
  {
    if actions != [] {
      var n := |actions| - 1;
      CallbacksAreRegistered(actions[..n]);
      StepRegisters(Run(actions[..n]).value, actions[..n], actions[n]);
      assert actions[..n] + [actions[n]] == actions;
    }
  }

  /** Some step of the run cleared the key while its callback was listed. */
  ghost predicate ClearedInTime(actions: seq<Action>, key: Key) {
    actions != [] &&
    var before, a := actions[..|actions| - 1], actions[|actions| - 1];
    ClearedInTime(before, key) ||
    (a.Clear? && a.key == key && Run(before).Some? && key in Keys(Run(before).value.list))
  }

  lemma {:induction false} ClearedIs(actions: seq<Action>, key: Key)
    requires Run(actions).Some?
    ensures key in Run(actions).value.cleared <==> ClearedInTime(actions, key)
  {
    if actions != [] {
      var before := actions[..|actions| - 1];
      ClearedIs(before, key);
      ListedAt(Run(before).value.list, key);
    }
  }

  lemma ListedAt(list: seq<Callback>, key: Key)
    ensures key in Keys(list) <==> IndexOf(list, key) < |list|
  {
    if IndexOf(list, key) < |list| {
      assert Keys(list)[IndexOf(list, key)] == key;
    }
  }

  ghost predicate IsCalled(t: Timers, key: Key) {
    exists i :: 0 <= i < |t.ran| && t.ran[i].key == key
  }

  /** The whole of it: once nothing is listed or about to be called, a callback has been called if and only if it
      was not cleared while it was listed; and one that was cleared in time is never called in any case. */
  lemma CalledUnlessClearedInTime(actions: seq<Action>, key: Key)
    requires Run(actions).Some? && key < |SetsOf(actions)|
    ensures var t := Run(actions).value;
            (ClearedInTime(actions, key) ==> !IsCalled(t, key)) &&
            (t.list == [] && t.toRun == [] ==> (IsCalled(t, key) <==> !ClearedInTime(actions, key)))
  {
    var t := Run(actions).value;
    CallbacksAreRegistered(actions);
    ClearedIs(actions, key);
    if i :| 0 <= i < |t.ran| && t.ran[i].key == key {
      CalledOnceUnlessCleared(actions, i);
    }
    if t.list == [] && t.toRun == [] {
      NoneForgotten(actions, key);
    }
  }

  // ---------- nothing gets stuck ----------

  /** The run goes on, but nothing is registered or cleared. */
  ghost predicate GoesOn(actions: seq<Action>, after: seq<Action>) {
    && actions <= after && Run(after).Some?
    && SetsOf(after) == SetsOf(actions)
    && forall key :: ClearedInTime(after, key) <==> ClearedInTime(actions, key)
  }

  lemma OneMore(actions: seq<Action>, a: Action)
    requires Run(actions).Some? && Enabled(Run(actions).value, a) && (a.Fire? || a.Call?)
    ensures Run(actions + [a]) == Some(Step(Run(actions).value, a))
    ensures GoesOn(actions, actions + [a])
  {
    assert (actions + [a])[..|actions|] == actions;
  }

  lemma GoesOnTransitive(a: seq<Action>, b: seq<Action>, c: seq<Action>)
    requires GoesOn(a, b) && GoesOn(b, c)
    ensures GoesOn(a, c)
  {
  }

  lemma {:induction false} CallsAll(actions: seq<Action>) returns (after: seq<Action>)
    requires Run(actions).Some?
    ensures GoesOn(actions, after) && Run(after).value.toRun == [] && Run(after).value.list == Run(actions).value.list
    decreases |Run(actions).value.toRun|
  {
    after := actions;
    if Run(actions).value.toRun != [] {
      OneMore(actions, Call);
      after := CallsAll(actions + [Call]);
      GoesOnTransitive(actions, actions + [Call], after);
    }
  }

  /** The timer fires late enough for all that is listed, and then all of it is called. */
  lemma FiresAll(actions: seq<Action>) returns (after: seq<Action>)
    requires Run(actions).Some? && Run(actions).value.toRun == [] && Run(actions).value.list != []
    ensures GoesOn(actions, after) && Run(after).value.list == [] && Run(after).value.toRun == []
  {
    var t := Run(actions).value;
    var fire := Fire(t.list[|t.list| - 1].runAt, t.list[|t.list| - 1].runAt);
    SortedAndArmed(actions);
    LastIsLatest(t.list);
    OneMore(actions, fire);
    after := CallsAll(actions + [fire]);
    GoesOnTransitive(actions, actions + [fire], after);
  }

  /** After any run all that is left can be called, if only time goes on and nothing new is registered or cleared:
      then the callbacks that have been called are all but those that were cleared in time. */
  lemma AllCanBeCalled(actions: seq<Action>) returns (after: seq<Action>)
    requires Run(actions).Some?
    ensures GoesOn(actions, after) && Run(after).value.list == [] && Run(after).value.toRun == []
    ensures forall key: Key :: key < |SetsOf(actions)| ==>
              (IsCalled(Run(after).value, key) <==> !ClearedInTime(actions, key))
  {
    after := CallsAll(actions);
    if Run(after).value.list != [] {
      var called := after;
      after := FiresAll(called);
      GoesOnTransitive(actions, called, after);
    }
    forall key: Key | key < |SetsOf(actions)|
      ensures IsCalled(Run(after).value, key) <==> !ClearedInTime(actions, key)
    {
      CalledUnlessClearedInTime(after, key);
    }
  }

  lemma LastIsLatest(list: seq<Callback>)
    requires Sorted(list) && list != []
    ensures Due(list, list[|list| - 1].runAt) == |list|
  {
    var now := list[|list| - 1].runAt;
    forall i | 0 <= i < |list| ensures list[i].runAt <= now {
      assert i < |list| - 1 ==> Before(list[i], list[|list| - 1]);
    }
    DueIs(list, now, |list|);
  }
}
