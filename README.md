# Browser tracker: session identity and rate shapers

A Dafny model of the two pieces of logic in a browser-side behaviour tracker:

- **`Analytics`** (`index.ts`), the process-wide singleton that owns the
  visitor and session identity. `register` validates the application id and
  the label service, reads or creates the visitor id, and applies the idle
  timeout `afk` (in seconds, 300 by default). `handleActiveUser` rotates the
  session id when the *previously stored* expiry is strictly before now. It
  then always pushes the stored expiry to `now + afk * 1000` ms.
  `sendAnalyticsEvent` stamps each tracker event with the four identity fields
  and builds one POST request.
- **`useDebounce` and `useThrottle`** (`hooks/debounce.ts`), two React hooks
  that shape how often a changing value propagates. Each is modelled as a
  state machine with explicit time and a single cancellable pending timer.

The environment is explicit:

- `localStorage` is a `map<string, string>` field of the class.
- The clock is an integer number of milliseconds, passed as `now`.
- `crypto.randomUUID()` is a supplied id of type `Uuid` (a non-empty string).
- The `fetch` call is the `Request` record that would be sent: URL, method,
  content type, the `x-application-id` header value, and the stamped list.

The stored expiry is a string. It is written with `${n}` (`Decimal.FromInt`)
and read back with `Number(...)` (`Decimal.ToNumber`), and
`Decimal.RoundTrip` proves that what is written reads back unchanged.

Files:

- `wrappers.dfy`: `Option`, `Result` and `Outcome`.
- `decimal.dfy`: the number/string conversion used for the expiry key.
- `session.dfy`: module `Session`, the `Analytics` class, the pure functions
  that specify its methods (`AfterActivity`, `AfterRegister`, `Stamp`) and the
  lemmas about them.
- `rate_shapers.dfy`: module `RateShapers`, the `Debouncer` and `Throttler`
  classes, their step functions and the lemmas over runs of steps.

Each class method is proved to leave the object in the state that its step
function gives from the old state. The multi-call properties are lemmas about
those functions.

Three consequences of the code as written:

- The visitor id is read from `analytics-visitorid` but a new one is written
  to `visitor-id` (index.ts:67-72). The model keeps this as written. As a
  consequence, the visitor id is *not* stable across registrations when only
  this code writes the store: `Session.VisitorRerolled` proves that each
  registration then adopts the fresh id it is given.
- On a first registration, the session id is non-empty only if the session lapsed or
  the store already holds a non-empty `analytics-sessionid`
  (`Session.RegisterSession`). A store with an unexpired expiry but no session
  id leaves `getSessionId()` undefined.
- In the throttle, the check `Date.now() - lastRan.current >= limit` inside the
  timer callback can never fail, as long as timers do not run before they are
  due. `RateShapers.ThrottleTimerNeverRejected` proves this: every pending
  timer is due no sooner than `lastRan + limit`.

## Model

| member | source | states |
|---|---|---|
| `Session.Analytics.constructor` | index.ts:24-38 | A new object has no application id, visitor id, session id or label service, has `afk` = 300, and leaves the existing store as it is. |
| `Session.Analytics.GetApplicationId` | index.ts:40-45 | Fails with `ApplicationIdNotDefined` exactly when the application id is unset or empty; otherwise it returns that id unchanged. |
| `Session.Analytics.GetSessionId` | index.ts:51-53 | Returns the in-memory session id, which is `None` before any registration or rotation. |
| `Session.Analytics.Register` | index.ts:55-85 | On empty arguments it fails and no field or store key changes; otherwise the new state is the one `AfterRegister` gives. |
| `Session.Analytics.HandleActiveUser` | index.ts:87-110 | The new state (fields and store) is the one `AfterActivity` gives from the old state. The store invariant (the expiry is readable as a number) is kept. |
| `Session.Analytics.SendAnalyticsEvent` | index.ts:112-128 | Returns one POST request to `http://localhost:3000/tracker-event`. The body has one element per event, in order; each keeps its event and carries the current identity, possibly undefined. The header is the application id, or `""` when unset. No field or store key changes. |
| `Session.AfterActivity` | index.ts:87-110 | If the stored expiry (0 when missing) is before `now`, the fresh id becomes the session id in memory and in the store; otherwise both are unchanged. In either case the stored expiry reads back as `now + afk*1000`. No other field or key changes. |
| `Session.AfterRegister` | index.ts:55-85 | Fails exactly on an empty application id (`ApplicationIdRequired`, checked first) or an empty label service (`LabelServiceRequired`). On success it records both names, keeps the expiry readable, and leaves every store key other than `visitor-id`, `analytics-sessionid` and `analytics-session-expiration` as it was. |
| `Session.Stamp` | index.ts:113-119 | The result has the same length as the input; each element keeps its event's timestamp and dimensions and carries the given identity fields. |
| `Session.StampKeepsEvents` | index.ts:113-119 | Removing the identity fields from the stamped list gives back the input list, in the same order. |
| `Session.RegisterAfk` | index.ts:76-79 | Registration replaces `afk` only with a present, non-zero option. The expiry that registration stores uses the new `afk`. |
| `Session.RegisterVisitor` | index.ts:67-72 | A non-empty stored `analytics-visitorid` is adopted, and no visitor key is written. Otherwise the fresh id is adopted and written under `visitor-id`, while `analytics-visitorid` stays as it was. |
| `Session.VisitorRerolled` | index.ts:67-70 | With no `analytics-visitorid` in the store, each of two registrations in a row adopts the fresh visitor id it is given, so the visitor id is not stable. |
| `Session.RegisterSession` | index.ts:79-83 | After registering: a lapsed session has the fresh id. Otherwise a non-empty stored `analytics-sessionid` is adopted, and failing that the in-memory id is kept. |
| `Session.FirstRegistration` | index.ts:55-85 | Registering into a store with no visitor id and no expiry, at a positive time, yields the given names, the fresh visitor id and the fresh session id, and an expiry 300 s ahead. |
| `Session.ConsecutiveActivity` | index.ts:88-104 | For two activity signals at `t1` and then `t2`, the second rotates the session (in memory and in the store) exactly when `t1 + afk*1000 < t2`. Otherwise it keeps the session. |
| `Session.Activities` | index.ts:87-110 | Any run of activity signals keeps the expiry readable and leaves `afk` unchanged. |
| `Session.SteadyActivityKeepsSession` | index.ts:92-104 | A run of activity signals whose first comes by the stored expiry, and where no gap exceeds `afk` seconds, keeps the session id in memory and in the store. |
| `Decimal.FromInt` | index.ts:106-109 | `${n}` is non-empty and starts with `-` exactly when `n` is negative. |
| `Decimal.RoundTrip` | index.ts:92-109 | An expiry written with `${n}` reads back through `Number(...)` as `n`. |
| `RateShapers.DebounceStart` | hooks/debounce.ts:4-16 | The initial output equals the initial value, even an empty one. A timer capturing that value is pending exactly when the value has items; it is due `delay` ms later (500 when `delay` is 0), or at once for a negative delay. |
| `RateShapers.DebounceChange` | hooks/debounce.ts:7-16 | A change never touches the output. A timer is scheduled exactly when the new value has items; it captures that value and is due `delay` ms later, or 500 ms when `delay` is 0, and at once for a negative delay (which `setTimeout` treats as 0). |
| `RateShapers.DebounceChangeCancels` | hooks/debounce.ts:13-15 | The state after a change does not depend on the timer that was pending: every change cancels it. |
| `RateShapers.DebounceElapse` | hooks/debounce.ts:11 | A timer whose due time has come sets the output to the value it captured and goes away. Otherwise nothing changes. |
| `RateShapers.DebounceIdle` | hooks/debounce.ts:9 | With no timer pending, time passing changes nothing. |
| `RateShapers.DebounceFires` | hooks/debounce.ts:11 | With a timer pending, time passing sets the output to the captured value once some moment reaches the due time, and changes nothing before that. |
| `RateShapers.DebounceSettles` | hooks/debounce.ts:9-15 | A value with items, followed by no further change until time reaches its effective delay, becomes the output. Before that, the output is unchanged. |
| `RateShapers.DebounceEmptyRetains` | hooks/debounce.ts:9-15 | A value without items keeps the output however much time passes. This also cancels an update still pending from an earlier value with items. |
| `RateShapers.DebounceNeverEmptied` | hooks/debounce.ts:5-16 | Every step keeps the invariant: the output is the initial value or has items, and any pending timer captured a value with items. |
| `RateShapers.DebounceOutputOrigin` | hooks/debounce.ts:4-18 | Whatever the inputs, the debounced output is its initial value or a value with items. |
| `RateShapers.Debouncer.constructor` | hooks/debounce.ts:4-16 | The first render yields the state `DebounceStart` gives. |
| `RateShapers.Debouncer.OnChange` | hooks/debounce.ts:7-16 | The effect re-run yields the state `DebounceChange` gives. |
| `RateShapers.Debouncer.OnElapse` | hooks/debounce.ts:11 | Running a due timer yields the state `DebounceElapse` gives. |
| `RateShapers.ThrottleStart` | hooks/debounce.ts:21-31 | The output is the initial value and `lastRan` is the creation time. One timer is pending, capturing the value, due exactly `limit` ms after creation (at once for a negative limit). |
| `RateShapers.ThrottleChange` | hooks/debounce.ts:25-36 | A change replaces the pending timer with exactly one new timer that captures the new value; output and `lastRan` stay. Inside the window the timer is due exactly at `lastRan + limit` (not a fresh full window); after the window has closed it is due at once. |
| `RateShapers.ThrottleChangeCancels` | hooks/debounce.ts:33-35 | The state after a change does not depend on the timer that was pending, so at most one throttle timer is ever pending. |
| `RateShapers.ThrottleElapse` | hooks/debounce.ts:26-30 | A due timer with at least `limit` ms since `lastRan` sets the output to its captured value and `lastRan := now`. A due timer inside the window only goes away. Otherwise nothing changes. |
| `RateShapers.ThrottleIdle` | hooks/debounce.ts:26 | With no throttle timer pending, time passing changes nothing. |
| `RateShapers.ThrottleFires` | hooks/debounce.ts:26-30 | A pending timer that respects the window sets the throttled value to its captured value and `lastRan` to the first moment that reaches its due time, and changes nothing before that. |
| `RateShapers.ThrottleSettles` | hooks/debounce.ts:25-31 | A change followed by no further change while time reaches its due time (`lastRan + limit` inside the window, at once after it) sets the throttled value to the new value; before that the throttled value is unchanged. |
| `RateShapers.SpacedCons` | hooks/debounce.ts:27-29 | An update `limit` after the start, followed by updates spaced from it, is spaced from the start. |
| `RateShapers.ThrottleSpacing` | hooks/debounce.ts:23-31 | Under a fixed limit, the first update is at least `limit` ms after `lastRan`, and any two successive updates of the throttled value are at least `limit` ms apart. |
| `RateShapers.ThrottleSpacingFromStart` | hooks/debounce.ts:22-31 | The first update comes at least `limit` ms after the hook was created, and successive updates are at least `limit` ms apart. |
| `RateShapers.ThrottleStartRespectsWindow` | hooks/debounce.ts:23-31 | The timer scheduled at creation is not due before `lastRan + limit`. |
| `RateShapers.ThrottleTimerNeverRejected` | hooks/debounce.ts:26-31 | Every run keeps pending timers due no sooner than `lastRan + limit`, so a timer that runs always passes the check and sets the throttled value. |
| `RateShapers.Throttler.constructor` | hooks/debounce.ts:21-31 | The first render yields the state `ThrottleStart` gives. |
| `RateShapers.Throttler.OnChange` | hooks/debounce.ts:25-36 | The effect re-run yields the state `ThrottleChange` gives. |
| `RateShapers.Throttler.OnElapse` | hooks/debounce.ts:26-30 | Running a due timer yields the state `ThrottleElapse` gives. |

## Left out

- The `fetch` call itself, the HTTP endpoint's response and `JSON.stringify` (index.ts:120-127) are network I/O. Only the request record is modelled, with its body before JSON encoding.
- Real `localStorage`, `crypto.randomUUID` and luxon's `DateTime` (index.ts:67-109) are not modelled. They become a map, a supplied non-empty id and an integer millisecond clock.
- Both `DateTime.now()` readings in `handleActiveUser` (index.ts:88, index.ts:98) are the same `now`; the model has no time passing between them.
- `afk` is an integer. A fractional `afk` and luxon's rounding of `plus({seconds})` are not modelled.
- Session.ExpiryReadable: the stored expiry must be an optionally signed string of decimal digits, or the empty string (which `Number` reads as 0). This is required of the store and kept by every method. Strings that `Number(...)` turns into NaN, and other numeric spellings (whitespace, `+`, fractions, exponents, hex), are not modelled (index.ts:95-97).
- The `resolutions` field, `getResolutions`, the `window` resize listener and the `./windowSize.js` import (index.ts:2, index.ts:33-36, index.ts:47-49, index.ts:84, index.ts:130-137) are DOM event plumbing.
- Session.AfterActivity: `now`, `afk` and the expiry are unbounded integers. JavaScript dates are limited to ±8.64e15 ms and numbers are exact only up to 2^53; outside that range `getTime()` gives NaN, `"NaN"` is stored, and no later call rotates the session (for instance with `afk` = -1e13). The model instead stores the exact sum and keeps rotating, so `Session.ConsecutiveActivity` holds only within that range.
- Session.Dimensions: `meta` (`Record<string, any>`) is narrowed to a map from strings to integers, and the free-form keys (`[key: string]: any`) to a map from strings to strings. Stamping only passes them through, so nothing stated depends on their types.
- hooks/tracker.ts is not part of this model. It is React/DOM glue whose only logic is calls into `Analytics` and `useThrottle`.
- The React effect lifecycle is reduced to two steps: a change of the hook's dependencies (`OnChange`) and time passing (`OnElapse`). React compares dependencies by reference; the model assumes the environment calls `OnChange` exactly when a dependency changed. Unmounting the hook, which cancels its timer, is not modelled.
- `setTimeout` treats a negative delay as 0; that is modelled. Its overflow of delays above 2^31-1 ms, and timers that run before their due time, are not.
- RateShapers.Input: the debounce guard is modelled for values that have a length (arrays, strings) and values that have none. An object with its own numeric `length` property is not modelled.
- RateShapers.ThrottleSpacing: stated for runs that keep the limit fixed. When the limit changes, every change re-schedules with the new limit, so each update is spaced by the limit in force, but that is not stated.
- RateShapers.ThrottleElapse: the callback reads `Date.now()` twice (hooks/debounce.ts:27 and hooks/debounce.ts:29); the model uses one `now` for both.
- RateShapers.ThrottleElapse: the callback checks the limit of the state, not a limit captured by its closure. The two are the same, because every change of `limit` cancels the timer and schedules a new one.
