/** src/realtime-callbacks.js as it is written: module variables that its functions update in place.
    Every method is one step of `TimerModel`. */
module RealtimeCallbacks {
  import opened Common
  import opened TimerModel

  class Callbacks {
    var callbackList: seq<Callback>
    var count: Key
    var realCallback: Option<RealTimer>

    // the local list of the loop that calls the callbacks, as other steps come between its rounds
    var callbacksToRun: seq<Callback>

    ghost var ran: seq<Callback>
    ghost var cleared: seq<Key>

    ghost function Contents(): Timers
      reads this
    {
      Timers(callbackList, count, realCallback, callbacksToRun, ran, cleared)
    }

    constructor ()
      ensures Contents() == EMPTY
    {
      callbackList, count, realCallback, callbacksToRun := [], 0, None, [];
      ran, cleared := [], [];
    }

    method SetTimeout(func: Function, delayMs: int, now: int, later: int) returns (key: Key)
      requires Inv(Contents())
      modifies this
      ensures Contents() == Step(old(Contents()), Set(func, delayMs, now, later)) && Inv(Contents())
      ensures key == old(count)
    {
      SetKeeps(Contents(), func, delayMs, now, later);
      var delay := if delayMs < 0 then 0 else delayMs;
      key := Register(now + delay, func);
      ScheduleRealCallback(later);
    }

    method Register(runAt: int, func: Function) returns (key: Key)
      requires Sorted(callbackList)
      modifies this`count, this`callbackList
      ensures key == old(count) && count == key + 1
      ensures callbackList == Insert(old(callbackList), Callback(runAt, key, func))
    {
      key := count;
      count := count + 1;
      var idx := BinarySearch(callbackList, runAt);
      callbackList := callbackList[..idx] + [Callback(runAt, key, func)] + callbackList[idx..];
    }

    method ClearTimeout(key: Key, now: int)
      requires Inv(Contents())
      modifies this
      ensures Contents() == Step(old(Contents()), Clear(key, now)) && Inv(Contents())
    {
      ClearKeeps(Contents(), key, now);
      if |callbackList| == 0 {
        return;
      }
      var i := 0;
      while i < |callbackList| && callbackList[i].key != key
        invariant 0 <= i <= |callbackList|
        invariant forall j :: 0 <= j < i ==> callbackList[j].key != key
      {
        i := i + 1;
      }
      assert i == IndexOf(callbackList, key);
      if i < |callbackList| {
        callbackList := callbackList[..i] + callbackList[i + 1..];
        cleared := cleared + [key];
      }
      if i == 0 {
        ScheduleRealCallback(now);
      }
    }

    method ScheduleRealCallback(now: int)
      modifies this`realCallback
      ensures realCallback == Schedule(callbackList, now)
    {
      realCallback := None;
      if |callbackList| == 0 {
        return;
      }
      var delayMs := Min(callbackList[0].runAt - now, TIMER_CHECK_PERIOD_MS);
      realCallback := Some(RealTimer(now + delayMs, now));
    }

    /** `_runCallbacks` up to its last loop. */
    method RunCallbacks(now: int, later: int)
      requires Inv(Contents()) && Enabled(Contents(), Fire(now, later))
      modifies this
      ensures Contents() == Step(old(Contents()), Fire(now, later)) && Inv(Contents())
    {
      FireKeeps(Contents(), now, later);
      TakeDue(now);
      ScheduleRealCallback(later);
    }

    method TakeDue(now: int)
      requires callbacksToRun == []
      modifies this`callbackList, this`callbacksToRun
      ensures callbacksToRun == old(callbackList)[..Due(old(callbackList), now)]
      ensures callbackList == old(callbackList)[Due(old(callbackList), now)..]
    {
      ghost var n := 0;
      while |callbackList| > 0 && callbackList[0].runAt <= now
        invariant n <= |old(callbackList)|
        invariant forall i :: 0 <= i < n ==> old(callbackList)[i].runAt <= now
        invariant callbacksToRun == old(callbackList)[..n] && callbackList == old(callbackList)[n..]
        decreases |callbackList|
      {
        callbacksToRun := callbacksToRun + [callbackList[0]];
        callbackList := callbackList[1..];
        n := n + 1;
      }
      assert n < |old(callbackList)| ==> old(callbackList)[n] == callbackList[0];
      DueIs(old(callbackList), now, n);
    }

    /** One round of the last loop of `_runCallbacks`. What the callback does are steps of their own. */
    method CallNext() returns (func: Function)
      requires Inv(Contents()) && Enabled(Contents(), Call)
      modifies this
      ensures Contents() == Step(old(Contents()), Call) && Inv(Contents())
      ensures func == old(callbacksToRun)[0].func
    {
      CallKeeps(Contents());
      func := callbacksToRun[0].func;
      ran := ran + [callbacksToRun[0]];
      callbacksToRun := callbacksToRun[1..];
    }
  }

  /** Finds the end of the callbacks that are due by `runAt`. */
  method BinarySearch(list: seq<Callback>, runAt: int) returns (min: nat)
    requires Sorted(list)
    ensures min == Due(list, runAt)
  {
    min := 0;
    var max := |list|;
    while min < max
      invariant 0 <= min <= max <= |list|
      invariant forall i :: 0 <= i < min ==> list[i].runAt <= runAt
      invariant forall i :: max <= i < |list| ==> list[i].runAt > runAt
    {
      var mid := (min + max) / 2;
      assert forall i :: mid < i < |list| ==> Before(list[mid], list[i]);
      assert forall i :: 0 <= i < mid ==> Before(list[i], list[mid]);
      if list[mid].runAt > runAt {
        max := mid;
      } else {
        min := mid + 1;
      }
    }
    DueIs(list, runAt, min);
  }
}
