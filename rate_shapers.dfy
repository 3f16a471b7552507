/**
 * The rate shapers `useDebounce` and `useThrottle` as state machines over
 * explicit time. Each hook holds its current output, at most one pending timer
 * (when it fires and the value it captured) and, for the throttle, the time of
 * its last update. Two kinds of step drive them: a change of the hook's inputs
 * at time `now` (the effect re-runs: its cleanup cancels the pending timer and
 * the new run may schedule one), and the passing of time up to `now` (a timer
 * whose due time has come runs its callback).
 */
module RateShapers {
  import opened Wrappers

  /**
   * The value a debounce hook is given: `Some(items)` for a value that has a
   * length (an array or a string), `None` for one that has not (`undefined`,
   * `null`, a number, a plain object).
   */
  type Input<T> = Option<seq<T>>

  /** `!value || !value?.length` is false: the value has a non-zero length. */
  predicate HasItems<T>(v: Input<T>) {
    v.Some? && |v.value| > 0
  }

  const DefaultDelay: int := 500

  /** `delay || 500`. */
  function EffectiveDelay(delay: int): int {
    if delay != 0 then delay else DefaultDelay
  }

  /** When a callback given to `setTimeout` at `now` with `delay` becomes due; a negative delay counts as 0. */
  function DueAt(now: int, delay: int): int {
    if delay < 0 then now else now + delay
  }

  /** A pending `setTimeout` callback: when it becomes due and the value it captured. */
  datatype Timer<V> = Timer(due: int, captured: V)

  /** A step of a hook's environment. */
  datatype Step<V> =
    | Change(value: V, param: int, at: int)  // the hook re-renders with a new value or delay/limit
    | Elapse(at: int)                         // time passes up to `at`; a due timer runs

  // ---------------------------------------------------------------- debounce

  datatype DebounceState<T> = DebounceState(
    value: Input<T>,
    delay: int,
    debouncedValue: Input<T>,
    pending: Option<Timer<Input<T>>>)

  /** The timer one run of the debounce effect schedules, if any. */
  function DebounceTimer<T>(v: Input<T>, delay: int, now: int): Option<Timer<Input<T>>> {
    if HasItems(v) then Some(Timer(DueAt(now, EffectiveDelay(delay)), v)) else None
  }

  /** The first render at `now`: the output is the initial value, and the effect runs once. */
  function DebounceStart<T>(v: Input<T>, delay: int, now: int): (s: DebounceState<T>)
    ensures s.debouncedValue == v
    ensures s.pending.Some? <==> HasItems(v)
    ensures s.pending.Some? ==> s.pending.value.captured == v && s.pending.value.due >= now
    ensures s.pending.Some? ==>
      s.pending.value.due == if EffectiveDelay(delay) < 0 then now else now + EffectiveDelay(delay)
  {
    DebounceState(v, delay, v, DebounceTimer(v, delay, now))
  }

  /**
   * A render at `now` with a new value or delay: the old timer is cancelled
   * whatever it was, the output is untouched, and a timer for the new value is
   * scheduled exactly when the value has items.
   */
  function DebounceChange<T>(s: DebounceState<T>, v: Input<T>, delay: int, now: int): (t: DebounceState<T>)
    ensures t.value == v && t.delay == delay && t.debouncedValue == s.debouncedValue
    ensures t.pending.Some? <==> HasItems(v)
    ensures t.pending.Some? ==> t.pending.value.captured == v
    ensures t.pending.Some? ==> t.pending.value.due >= now
    ensures t.pending.Some? && EffectiveDelay(delay) >= 0 ==> t.pending.value.due == now + EffectiveDelay(delay)
    ensures t.pending.Some? && EffectiveDelay(delay) < 0 ==> t.pending.value.due == now
  {
    s.(value := v, delay := delay, pending := DebounceTimer(v, delay, now))
  }

  /** A change cancels the pending debounce timer: the state after it does not depend on that timer. */
  lemma DebounceChangeCancels<T>(s: DebounceState<T>, stale: Option<Timer<Input<T>>>, v: Input<T>, delay: int, now: int)
    ensures DebounceChange(s, v, delay, now) == DebounceChange(s.(pending := stale), v, delay, now)
  {
  }

  /** Time passes up to `now`: a due timer sets the output to the value it captured. */
  function DebounceElapse<T>(s: DebounceState<T>, now: int): (t: DebounceState<T>)
    ensures s.pending.Some? && s.pending.value.due <= now ==>
      t == s.(debouncedValue := s.pending.value.captured, pending := None)
    ensures !(s.pending.Some? && s.pending.value.due <= now) ==> t == s
  {
    match s.pending
    case Some(timer) => if timer.due <= now then s.(debouncedValue := timer.captured, pending := None) else s
    case None => s
  }

  function DebounceStep<T>(s: DebounceState<T>, step: Step<Input<T>>): DebounceState<T> {
    match step
    case Change(v, delay, now) => DebounceChange(s, v, delay, now)
    case Elapse(now) => DebounceElapse(s, now)
  }

  function DebounceRun<T>(s: DebounceState<T>, steps: seq<Step<Input<T>>>): DebounceState<T>
    decreases |steps|
  {
    if steps == [] then s else DebounceRun(DebounceStep(s, steps[0]), steps[1..])
  }

  /** Only time passing, at each of `times`. */
  function Elapses<V>(times: seq<int>): (steps: seq<Step<V>>)
    ensures |steps| == |times|
    ensures forall i :: 0 <= i < |times| ==> steps[i] == Elapse(times[i])
  {
    seq(|times|, i requires 0 <= i < |times| => Elapse(times[i]))
  }

  /** With nothing pending, time passing changes nothing. */
  lemma {:induction false} DebounceIdle<T>(s: DebounceState<T>, times: seq<int>)
    requires s.pending.None?
    ensures DebounceRun(s, Elapses(times)) == s
    decreases |times|
  {
    if times != [] {
      assert Elapses<Input<T>>(times)[1..] == Elapses(times[1..]);
      DebounceIdle(s, times[1..]);
    }
  }

  /**
   * With a timer pending, time passing sets the output to the captured value
   * once some moment reaches the due time, and changes nothing before that.
   */
  lemma {:induction false} DebounceFires<T>(s: DebounceState<T>, times: seq<int>)
    requires s.pending.Some?
    ensures (exists i :: 0 <= i < |times| && s.pending.value.due <= times[i]) ==>
      DebounceRun(s, Elapses(times)) == s.(debouncedValue := s.pending.value.captured, pending := None)
    ensures (forall i :: 0 <= i < |times| ==> times[i] < s.pending.value.due) ==>
      DebounceRun(s, Elapses(times)) == s
    decreases |times|
  {
    if times != [] {
      assert Elapses<Input<T>>(times)[1..] == Elapses(times[1..]);
      var s1 := DebounceElapse(s, times[0]);
      if s.pending.value.due <= times[0] {
        DebounceIdle(s1, times[1..]);
      } else {
        DebounceFires(s, times[1..]);
        assert forall i :: 0 <= i < |times[1..]| ==> times[1..][i] == times[i + 1];
      }
    }
  }

  /**
   * A value with items, followed by no further change while time reaches its
   * due time (`delay`, or 500 when it is 0), becomes the output; before that
   * the output is unchanged.
   */
  lemma DebounceSettles<T>(s: DebounceState<T>, v: Input<T>, delay: int, now: int, times: seq<int>)
    requires HasItems(v)
    ensures var t := DebounceRun(DebounceChange(s, v, delay, now), Elapses(times));
      ((exists i :: 0 <= i < |times| && DueAt(now, EffectiveDelay(delay)) <= times[i]) ==> t.debouncedValue == v) &&
      ((forall i :: 0 <= i < |times| ==> times[i] < DueAt(now, EffectiveDelay(delay))) ==> t.debouncedValue == s.debouncedValue)
  {
    DebounceFires(DebounceChange(s, v, delay, now), times);
  }

  /**
   * A value without items schedules nothing: the output is retained however
   * much time passes, and in particular an update still pending from an
   * earlier value with items is cancelled.
   */
  lemma DebounceEmptyRetains<T>(s: DebounceState<T>, v: Input<T>, delay: int, now: int, times: seq<int>)
    requires !HasItems(v)
    ensures DebounceRun(DebounceChange(s, v, delay, now), Elapses(times)).debouncedValue == s.debouncedValue
  {
    DebounceIdle(DebounceChange(s, v, delay, now), times);
  }

  /** The output is the initial value or some value with items, and so is anything a pending timer will set. */
  ghost predicate DebounceGuarded<T>(s: DebounceState<T>, initial: Input<T>) {
    (s.debouncedValue == initial || HasItems(s.debouncedValue)) &&
    (s.pending.Some? ==> HasItems(s.pending.value.captured))
  }

  /**
   * Whatever the inputs, the output of a debounce hook is its initial value or
   * a value with items: an empty value is never propagated.
   */
  lemma {:induction false} DebounceNeverEmptied<T>(s: DebounceState<T>, initial: Input<T>, steps: seq<Step<Input<T>>>)
    requires DebounceGuarded(s, initial)
    ensures DebounceGuarded(DebounceRun(s, steps), initial)
    decreases |steps|
  {
    if steps != [] {
      DebounceNeverEmptied(DebounceStep(s, steps[0]), initial, steps[1..]);
    }
  }

  lemma DebounceOutputOrigin<T>(v: Input<T>, delay: int, now: int, steps: seq<Step<Input<T>>>)
    ensures var out := DebounceRun(DebounceStart(v, delay, now), steps).debouncedValue;
      out == v || HasItems(out)
  {
    DebounceNeverEmptied(DebounceStart(v, delay, now), v, steps);
  }

  /** `useDebounce(value, delay)` as an object stepped by its environment. */
  class Debouncer<T> {
    var value: Input<T>
    var delay: int
    var debouncedValue: Input<T>
    var pending: Option<Timer<Input<T>>>

    function State(): DebounceState<T>
      reads this
    {
      DebounceState(value, delay, debouncedValue, pending)
    }

    constructor (value: Input<T>, delay: int, now: int)
      ensures State() == DebounceStart(value, delay, now)
    {
      this.value := value;
      this.delay := delay;
      debouncedValue := value;
      pending := None;
      if HasItems(value) {
        pending := Some(Timer(DueAt(now, EffectiveDelay(delay)), value));
      }
    }

    method OnChange(v: Input<T>, delay: int, now: int)
      modifies this
      ensures State() == DebounceChange(old(State()), v, delay, now)
    {
      pending := None;
      value := v;
      this.delay := delay;
      if !HasItems(v) {
        return;
      }
      var wait := if delay != 0 then delay else DefaultDelay;
      pending := Some(Timer(DueAt(now, wait), v));
    }

    method OnElapse(now: int)
      modifies this
      ensures State() == DebounceElapse(old(State()), now)
    {
      if pending.Some? && pending.value.due <= now {
        debouncedValue := pending.value.captured;
        pending := None;
      }
    }
  }

  // ---------------------------------------------------------------- throttle

  datatype ThrottleState<T> = ThrottleState(
    value: T,
    limit: int,
    throttledValue: T,
    lastRan: int,
    pending: Option<Timer<T>>)

  /** The timer one run of the throttle effect schedules: `limit - (now - lastRan)` ms from `now`. */
  function ThrottleTimer<T>(v: T, limit: int, lastRan: int, now: int): Timer<T> {
    Timer(DueAt(now, limit - (now - lastRan)), v)
  }

  /** The first render at `now`: `lastRan` is `now`, and the effect schedules a timer `limit` ms ahead. */
  function ThrottleStart<T>(v: T, limit: int, now: int): (s: ThrottleState<T>)
    ensures s.throttledValue == v && s.lastRan == now
    ensures s.pending.Some? && s.pending.value.captured == v && s.pending.value.due >= now + limit
    ensures s.pending.value.due == if limit < 0 then now else now + limit
  {
    ThrottleState(v, limit, v, now, Some(ThrottleTimer(v, limit, now, now)))
  }

  /**
   * A render at `now` with a new value or limit: the old timer is replaced by
   * one capturing the new value, due no sooner than `limit` after the last
   * update; within the window that is exactly `lastRan + limit`, not a fresh
   * full window.
   */
  function ThrottleChange<T>(s: ThrottleState<T>, v: T, limit: int, now: int): (t: ThrottleState<T>)
    ensures t.value == v && t.limit == limit
    ensures t.throttledValue == s.throttledValue && t.lastRan == s.lastRan
    ensures t.pending.Some? && t.pending.value.captured == v
    ensures t.pending.value.due >= now && t.pending.value.due >= s.lastRan + limit
    ensures t.pending.value.due == if now - s.lastRan <= limit then s.lastRan + limit else now
  {
    s.(value := v, limit := limit, pending := Some(ThrottleTimer(v, limit, s.lastRan, now)))
  }

  /** A change cancels the pending throttle timer: the state after it does not depend on that timer. */
  lemma ThrottleChangeCancels<T>(s: ThrottleState<T>, stale: Option<Timer<T>>, v: T, limit: int, now: int)
    ensures ThrottleChange(s, v, limit, now) == ThrottleChange(s.(pending := stale), v, limit, now)
  {
  }

  /** The callback of a timer due at `now` sets the output: at least `limit` ms have passed since `lastRan`. */
  predicate ThrottleUpdates<T>(s: ThrottleState<T>, now: int) {
    s.pending.Some? && s.pending.value.due <= now && now - s.lastRan >= s.limit
  }

  /**
   * Time passes up to `now`: a due timer runs; it sets the output and
   * `lastRan := now` if at least `limit` ms have passed since `lastRan`, and
   * otherwise only goes away.
   */
  function ThrottleElapse<T>(s: ThrottleState<T>, now: int): (t: ThrottleState<T>)
    ensures ThrottleUpdates(s, now) ==>
      t == s.(throttledValue := s.pending.value.captured, lastRan := now, pending := None)
    ensures s.pending.Some? && s.pending.value.due <= now && !ThrottleUpdates(s, now) ==> t == s.(pending := None)
    ensures !(s.pending.Some? && s.pending.value.due <= now) ==> t == s
  {
    match s.pending
    case Some(timer) =>
      if timer.due <= now then
        if now - s.lastRan >= s.limit then s.(throttledValue := timer.captured, lastRan := now, pending := None)
        else s.(pending := None)
      else s
    case None => s
  }

  function ThrottleStep<T>(s: ThrottleState<T>, step: Step<T>): ThrottleState<T> {
    match step
    case Change(v, limit, now) => ThrottleChange(s, v, limit, now)
    case Elapse(now) => ThrottleElapse(s, now)
  }

  function ThrottleRun<T>(s: ThrottleState<T>, steps: seq<Step<T>>): ThrottleState<T>
    decreases |steps|
  {
    if steps == [] then s else ThrottleRun(ThrottleStep(s, steps[0]), steps[1..])
  }

  /** The times at which the throttled value is set during `steps`. */
  function UpdateTimes<T>(s: ThrottleState<T>, steps: seq<Step<T>>): seq<int>
    decreases |steps|
  {
    if steps == [] then []
    else
      var now := if steps[0].Elapse? && ThrottleUpdates(s, steps[0].at) then [steps[0].at] else [];
      now + UpdateTimes(ThrottleStep(s, steps[0]), steps[1..])
  }

  /** The first of `times` is at least `gap` after `start`, and each one at least `gap` after the one before. */
  predicate Spaced(start: int, times: seq<int>, gap: int) {
    (|times| > 0 ==> times[0] - start >= gap) &&
    forall i :: 0 <= i < |times| - 1 ==> times[i + 1] - times[i] >= gap
  }

  /** Every change keeps the limit of `s`. */
  predicate KeepsLimit<T>(s: ThrottleState<T>, steps: seq<Step<T>>) {
    forall i :: 0 <= i < |steps| && steps[i].Change? ==> steps[i].param == s.limit
  }

  lemma SpacedCons(start: int, t: int, rest: seq<int>, gap: int)
    requires t - start >= gap && Spaced(t, rest, gap)
    ensures Spaced(start, [t] + rest, gap)
  {
  }

  /**
   * Under a fixed limit, the throttled value is set at least `limit` ms after
   * `lastRan`, and successive updates are at least `limit` ms apart.
   */
  lemma {:induction false} ThrottleSpacing<T>(s: ThrottleState<T>, steps: seq<Step<T>>)
    requires KeepsLimit(s, steps)
    ensures Spaced(s.lastRan, UpdateTimes(s, steps), s.limit)
    decreases |steps|
  {
    if steps != [] {
      var s1 := ThrottleStep(s, steps[0]);
      assert s1.limit == s.limit by {
        assert steps[0].Change? ==> steps[0].param == s.limit;
      }
      assert KeepsLimit(s1, steps[1..]) by {
        forall i | 0 <= i < |steps[1..]| && steps[1..][i].Change?
          ensures steps[1..][i].param == s1.limit
        {
          assert steps[1..][i] == steps[i + 1];
        }
      }
      ThrottleSpacing(s1, steps[1..]);
      if steps[0].Elapse? && ThrottleUpdates(s, steps[0].at) {
        SpacedCons(s.lastRan, steps[0].at, UpdateTimes(s1, steps[1..]), s.limit);
      }
    }
  }

  /** From creation: the first update comes at least `limit` ms after the hook was created. */
  lemma ThrottleSpacingFromStart<T>(v: T, limit: int, now: int, steps: seq<Step<T>>)
    requires forall i :: 0 <= i < |steps| && steps[i].Change? ==> steps[i].param == limit
    ensures Spaced(now, UpdateTimes(ThrottleStart(v, limit, now), steps), limit)
  {
    ThrottleSpacing(ThrottleStart(v, limit, now), steps);
  }

  /** A pending timer is never due before the window since the last update has ended. */
  predicate WindowRespected<T>(s: ThrottleState<T>) {
    s.pending.Some? ==> s.pending.value.due - s.lastRan >= s.limit
  }

  /**
   * Since timers never run before they are due, the check in the throttle's
   * callback always passes: every timer that runs sets the throttled value.
   */
  lemma {:induction false} ThrottleTimerNeverRejected<T>(s: ThrottleState<T>, steps: seq<Step<T>>, now: int)
    requires WindowRespected(s)
    ensures var t := ThrottleRun(s, steps);
      WindowRespected(t) &&
      (t.pending.Some? && t.pending.value.due <= now ==> ThrottleUpdates(t, now))
    decreases |steps|
  {
    if steps != [] {
      ThrottleTimerNeverRejected(ThrottleStep(s, steps[0]), steps[1..], now);
    }
  }

  lemma ThrottleStartRespectsWindow<T>(v: T, limit: int, now: int)
    ensures WindowRespected(ThrottleStart(v, limit, now))
  {
  }

  /** With no throttle timer pending, time passing changes nothing. */
  lemma {:induction false} ThrottleIdle<T>(s: ThrottleState<T>, times: seq<int>)
    requires s.pending.None?
    ensures ThrottleRun(s, Elapses(times)) == s
    decreases |times|
  {
    if times != [] {
      assert Elapses<T>(times)[1..] == Elapses(times[1..]);
      ThrottleIdle(s, times[1..]);
    }
  }

  /**
   * With a throttle timer pending that respects the window, time passing sets
   * the throttled value to the captured value, and `lastRan` to the first
   * moment that reaches the due time, and changes nothing before that.
   */
  lemma {:induction false} ThrottleFires<T>(s: ThrottleState<T>, times: seq<int>)
    requires s.pending.Some? && WindowRespected(s)
    ensures (exists i :: 0 <= i < |times| && s.pending.value.due <= times[i]) ==>
      ThrottleRun(s, Elapses(times)).throttledValue == s.pending.value.captured &&
      ThrottleRun(s, Elapses(times)).pending.None?
    ensures forall j :: (0 <= j < |times| && s.pending.value.due <= times[j] &&
                         (forall i :: 0 <= i < j ==> times[i] < s.pending.value.due)) ==>
      ThrottleRun(s, Elapses(times)).lastRan == times[j]
    ensures (forall i :: 0 <= i < |times| ==> times[i] < s.pending.value.due) ==>
      ThrottleRun(s, Elapses(times)) == s
    decreases |times|
  {
    if times != [] {
      assert Elapses<T>(times)[1..] == Elapses(times[1..]);
      var s1 := ThrottleElapse(s, times[0]);
      if s.pending.value.due <= times[0] {
        assert ThrottleUpdates(s, times[0]);
        ThrottleIdle(s1, times[1..]);
      } else {
        ThrottleFires(s, times[1..]);
        assert forall i :: 0 <= i < |times[1..]| ==> times[1..][i] == times[i + 1];
      }
    }
  }

  /**
   * A change followed by no further change while time reaches its due time
   * (`lastRan + limit` inside the window, at once after it) sets the throttled
   * value to the new value; before that the throttled value is unchanged.
   */
  lemma ThrottleSettles<T>(s: ThrottleState<T>, v: T, limit: int, now: int, times: seq<int>)
    ensures var due := if now - s.lastRan <= limit then s.lastRan + limit else now;
      var t := ThrottleRun(ThrottleChange(s, v, limit, now), Elapses(times));
      ((exists i :: 0 <= i < |times| && due <= times[i]) ==> t.throttledValue == v) &&
      ((forall i :: 0 <= i < |times| ==> times[i] < due) ==> t.throttledValue == s.throttledValue)
  {
    ThrottleFires(ThrottleChange(s, v, limit, now), times);
  }

  /** `useThrottle(value, limit)` as an object stepped by its environment. */
  class Throttler<T> {
    var value: T
    var limit: int
    var throttledValue: T
    var lastRan: int
    var pending: Option<Timer<T>>

    function State(): ThrottleState<T>
      reads this
    {
      ThrottleState(value, limit, throttledValue, lastRan, pending)
    }

    constructor (value: T, limit: int, now: int)
      ensures State() == ThrottleStart(value, limit, now)
    {
      this.value := value;
      this.limit := limit;
      throttledValue := value;
      lastRan := now;
      pending := Some(Timer(DueAt(now, limit - (now - now)), value));
    }

    method OnChange(v: T, limit: int, now: int)
      modifies this
      ensures State() == ThrottleChange(old(State()), v, limit, now)
    {
      pending := None;
      value := v;
      this.limit := limit;
      pending := Some(Timer(DueAt(now, limit - (now - lastRan)), v));
    }

    method OnElapse(now: int)
      modifies this
      ensures State() == ThrottleElapse(old(State()), now)
    {
      if pending.Some? && pending.value.due <= now {
        var timer := pending.value;
        pending := None;
        if now - lastRan >= limit {
          throttledValue := timer.captured;
          lastRan := now;
        }
      }
    }
  }
}
