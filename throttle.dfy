/**
 * `throttle(fn, delay)` from `src/throttle.ts`: the returned `wrapper` calls
 * `fn` at once when idle and then ignores calls for `delay` milliseconds,
 * remembering only the most recent one; when the timer fires, that remembered
 * call goes through `wrapper` again.
 *
 * Time is not modelled: `setTimeout` becomes a count of timers scheduled, and
 * the timer's callback is the `TimerFire` method, called by the environment
 * while a timer is pending. The calls of `fn` are recorded in `invocations`.
 */
module Throttling {
  import opened Wrappers

  /** The default of the `delay` parameter. */
  const DEFAULT_DELAY: int := 500

  /** The `this` of a call: JavaScript's `null`, `undefined`, or an object. */
  datatype ThisValue = Null | Undefined | Object(ref: nat)

  /** One `fn.apply(thisArg, args)`. */
  datatype Invocation<A> = Invocation(thisArg: ThisValue, args: seq<A>)

  /** The closure state of one `throttle(fn, delay)` and what it has done so far. */
  class Throttle<A> {
    var isThrottle: bool
    /** `savedArgs`; `None` is `null`. */
    var savedArgs: Option<seq<A>>
    var savedThis: ThisValue
    const delay: int
    /** Every call of `fn`, in order. */
    var invocations: seq<Invocation<A>>
    /** How many timers `setTimeout` has been given, and how many of them have fired. */
    var scheduled: nat
    var fired: nat

    /** The timer callback would replay the saved call: both slots are `!== null`. */
    predicate Replayable()
      reads this
    {
      savedArgs.Some? && savedThis != Null
    }

    /** Every call of `fn` schedules one timer, and one is pending exactly while throttled. */
    ghost predicate Timers()
      reads this
    {
      && scheduled == |invocations|
      && fired <= scheduled <= fired + 1
      && (isThrottle <==> scheduled == fired + 1)
    }

    /** In addition, when idle there is no saved call waiting to be replayed. */
    ghost predicate Valid()
      reads this
    {
      Timers() && (!isThrottle ==> !Replayable())
    }

    /** `throttle(fn, delay)`: idle, nothing saved, nothing called; `delay` defaults to 500. */
    constructor (delayArg: Option<int>)
      ensures Valid()
      ensures delay == (if delayArg.Some? then delayArg.value else DEFAULT_DELAY)
      ensures !isThrottle && savedArgs == None && savedThis == Null
      ensures invocations == [] && scheduled == 0 && fired == 0
    {
      delay := if delayArg.Some? then delayArg.value else DEFAULT_DELAY;
      isThrottle := false;
      savedArgs := None;
      savedThis := Null;
      invocations := [];
      scheduled := 0;
      fired := 0;
    }

    /** `wrapper.apply(thisArg, args)`. Idle: call `fn` now, become throttled and schedule
        one timer. Throttled: save this call over any saved one and call nothing. */
    method Call(thisArg: ThisValue, args: seq<A>)
      requires Timers()
      modifies this
      ensures Valid() && isThrottle && fired == old(fired)
      ensures !old(isThrottle) ==>
        && invocations == old(invocations) + [Invocation(thisArg, args)]
        && scheduled == old(scheduled) + 1
        && savedArgs == old(savedArgs) && savedThis == old(savedThis)
      ensures old(isThrottle) ==>
        && invocations == old(invocations) && scheduled == old(scheduled)
        && savedArgs == Some(args) && savedThis == thisArg
    {
      if isThrottle {
        savedArgs := Some(args);
        savedThis := thisArg;
        return;
      }
      invocations := invocations + [Invocation(thisArg, args)];
      isThrottle := true;
      scheduled := scheduled + 1;
    }

    /** The callback of the pending timer: leave the throttled state, then replay the saved
        call through `wrapper` if both slots are non-null, and clear the slots after it. */
    method TimerFire()
      requires Valid() && isThrottle
      modifies this
      ensures Valid() && fired == old(fired) + 1
      ensures old(Replayable()) ==>
        && invocations == old(invocations) + [Invocation(old(savedThis), old(savedArgs).value)]
        && scheduled == old(scheduled) + 1 && isThrottle
        && savedArgs == None && savedThis == Null
      ensures !old(Replayable()) ==>
        && invocations == old(invocations) && scheduled == old(scheduled) && !isThrottle
        && savedArgs == old(savedArgs) && savedThis == old(savedThis)
    {
      fired := fired + 1;
      isThrottle := false;
      if savedArgs.Some? && savedThis != Null {
        Call(savedThis, savedArgs.value);
        savedArgs := None;
        savedThis := Null;
      }
    }
  }

  /** Three calls in one window, then the timers run out: `fn` sees the first call at once
      and the last one when the timer fires; the middle one is lost. */
  method BurstOfThree() returns (log: seq<Invocation<int>>, throttled: bool)
    ensures log == [Invocation(Object(1), [1]), Invocation(Object(1), [3])]
    ensures !throttled
  {
    var t := new Throttle<int>(None);
    t.Call(Object(1), [1]);
    t.Call(Object(1), [2]);
    t.Call(Object(1), [3]);
    t.TimerFire();
    t.TimerFire();
    log, throttled := t.invocations, t.isThrottle;
  }

  /** A call saved with a `null` this is never replayed (the check is `savedThis !== null`),
      and its arguments stay saved; an `undefined` this is replayed. */
  method SavedNullThis() returns (log: seq<Invocation<int>>, saved: Option<seq<int>>, undefinedLog: seq<Invocation<int>>)
    ensures log == [Invocation(Object(1), [1])] && saved == Some([2])
    ensures undefinedLog == [Invocation(Object(1), [1]), Invocation(Undefined, [2])]
  {
    var t := new Throttle<int>(Some(100));
    t.Call(Object(1), [1]);
    t.Call(Null, [2]);
    t.TimerFire();
    log, saved := t.invocations, t.savedArgs;
    var u := new Throttle<int>(Some(100));
    u.Call(Object(1), [1]);
    u.Call(Undefined, [2]);
    u.TimerFire();
    undefinedLog := u.invocations;
  }
}
