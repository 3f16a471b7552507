/**
 * The `Analytics` singleton: visitor and session identity, idle-timeout
 * session rotation, and the stamping of tracker events with that identity.
 *
 * The environment is explicit: `localStorage` is the `store` map, the clock is
 * an integer number of milliseconds `now`, `crypto.randomUUID()` is a supplied
 * fresh id, and the `fetch` call is the `Request` record that would be sent.
 */
module Session {
  import opened Wrappers
  import Decimal

  /** A value returned by `crypto.randomUUID()`: never the empty string. */
  type Uuid = s: string | s != "" witness "0"

  const ApiUrl: string := "http://localhost:3000"
  const EventPath: string := "/tracker-event"

  /** The key the visitor id is read from. */
  const VisitorReadKey: string := "analytics-visitorid"
  /** The key a newly created visitor id is written to (not the one it is read from). */
  const VisitorWriteKey: string := "visitor-id"
  const SessionKey: string := "analytics-sessionid"
  const ExpirationKey: string := "analytics-session-expiration"

  /** Idle seconds before a session lapses, unless `register` is given another. */
  const DefaultAfk: int := 300

  /** The errors `getApplicationId` and `register` throw. */
  datatype Error = ApplicationIdNotDefined | ApplicationIdRequired | LabelServiceRequired

  /** The identity fields of the singleton together with the store it uses. */
  datatype Identity = Identity(
    applicationId: Option<string>,
    visitorId: Option<string>,
    sessionId: Option<string>,
    labelService: Option<string>,
    afk: int,
    store: map<string, string>)

  datatype Resolution = Resolution(width: int, height: int)

  /** The optional `dimensions` of a tracker event; `extra` holds the free-form keys. */
  datatype Dimensions = Dimensions(
    route: Option<string>,
    resolution: Option<Resolution>,
    tag: Option<string>,
    event: Option<string>,
    meta: Option<map<string, int>>,
    extra: map<string, string>)

  datatype TrackerEvent = TrackerEvent(timestamp: int, dimensions: Option<Dimensions>)

  /** A tracker event as sent: the event's own fields plus the four identity fields. */
  datatype StampedEvent = StampedEvent(
    timestamp: int,
    dimensions: Option<Dimensions>,
    applicationId: Option<string>,
    sessionId: Option<string>,
    visitorId: Option<string>,
    labelService: Option<string>)

  /** The `fetch` call `sendAnalyticsEvent` makes, with its body before JSON encoding. */
  datatype Request = Request(
    url: string,
    httpMethod: string,
    contentType: string,
    applicationIdHeader: string,
    body: seq<StampedEvent>)

  /** JavaScript truthiness of a string that may be `null` or `undefined`. */
  predicate Truthy(s: Option<string>) {
    s.Some? && s.value != ""
  }

  /** `localStorage.getItem(key)`, with `None` for `null`. */
  function Lookup(store: map<string, string>, key: string): Option<string> {
    if key in store then Some(store[key]) else None
  }

  /** The stored expiry, if any, is a decimal number of milliseconds. */
  predicate ExpiryReadable(store: map<string, string>) {
    ExpirationKey in store ==> Decimal.ToNumber(store[ExpirationKey]).Some?
  }

  /** `Number(localStorage.getItem(ExpirationKey) ?? 0)`. */
  function StoredExpiry(store: map<string, string>): int
    requires ExpiryReadable(store)
  {
    if ExpirationKey in store then Decimal.ToNumber(store[ExpirationKey]).value else 0
  }

  /** The session lapsed: the previously stored expiry is strictly before `now`. */
  predicate Lapsed(store: map<string, string>, now: int)
    requires ExpiryReadable(store)
  {
    StoredExpiry(store) < now
  }

  /** The singleton as `new Analytics()` leaves it, over an existing store. */
  function Initial(store: map<string, string>): Identity {
    Identity(None, None, None, None, DefaultAfk, store)
  }

  /** The state after `handleActiveUser()` at time `now`, `newId` being the id `randomUUID` would give. */
  function AfterActivity(s: Identity, now: int, newId: Uuid): (t: Identity)
    requires ExpiryReadable(s.store)
    ensures ExpiryReadable(t.store) && StoredExpiry(t.store) == now + s.afk * 1000
    ensures Lapsed(s.store, now) ==> t.sessionId == Some(newId) && Lookup(t.store, SessionKey) == Some(newId)
    ensures !Lapsed(s.store, now) ==>
      t.sessionId == s.sessionId && Lookup(t.store, SessionKey) == Lookup(s.store, SessionKey)
    ensures t.applicationId == s.applicationId && t.visitorId == s.visitorId
    ensures t.labelService == s.labelService && t.afk == s.afk
    ensures forall k :: k != SessionKey && k != ExpirationKey ==> Lookup(t.store, k) == Lookup(s.store, k)
  {
    var expiry := now + s.afk * 1000;
    var rotated :=
      if Lapsed(s.store, now) then
        var store := s.store[SessionKey := newId];
        var read := Lookup(store, SessionKey);
        s.(store := store, sessionId := if Truthy(read) then read else s.sessionId)
      else s;
    Decimal.RoundTrip(expiry);
    rotated.(store := rotated.store[ExpirationKey := Decimal.FromInt(expiry)])
  }

  /** The state after the visitor-id lines of `register`. */
  function WithVisitor(s: Identity, newId: Uuid): Identity {
    var read := Lookup(s.store, VisitorReadKey);
    if Truthy(read) then s.(visitorId := read)
    else s.(store := s.store[VisitorWriteKey := newId], visitorId := Some(newId))
  }

  /** The result of `register(applicationId, labelService, {afk})` at time `now`. */
  function AfterRegister(s: Identity, applicationId: string, labelService: string, afk: Option<int>,
                         now: int, freshVisitor: Uuid, freshSession: Uuid): (r: Result<Identity, Error>)
    requires ExpiryReadable(s.store)
    ensures r.Failure? <==> applicationId == "" || labelService == ""
    ensures r.Failure? ==> r.error == if applicationId == "" then ApplicationIdRequired else LabelServiceRequired
    ensures r.Success? ==> ExpiryReadable(r.value.store)
    ensures r.Success? ==> r.value.applicationId == Some(applicationId) && r.value.labelService == Some(labelService)
    ensures r.Success? ==> forall k :: k != VisitorWriteKey && k != SessionKey && k != ExpirationKey ==>
      Lookup(r.value.store, k) == Lookup(s.store, k)
  {
    if applicationId == "" then Failure(ApplicationIdRequired)
    else if labelService == "" then Failure(LabelServiceRequired)
    else
      var v := WithVisitor(s, freshVisitor);
      var named := v.(applicationId := Some(applicationId), labelService := Some(labelService),
                      afk := if afk.Some? && afk.value != 0 then afk.value else v.afk);
      var active := AfterActivity(named, now, freshSession);
      var read := Lookup(active.store, SessionKey);
      Success(if Truthy(read) then active.(sessionId := read) else active)
  }

  /** Whether a stamped event carries exactly the identity fields of `id`. */
  predicate Carries(e: StampedEvent, id: Identity) {
    e.applicationId == id.applicationId && e.sessionId == id.sessionId &&
    e.visitorId == id.visitorId && e.labelService == id.labelService
  }

  /** `events.map(event => ({...event, applicationId, sessionId, visitorId, labelService}))`. */
  function Stamp(events: seq<TrackerEvent>, id: Identity): (r: seq<StampedEvent>)
    ensures |r| == |events|
    ensures forall i :: 0 <= i < |events| ==>
      r[i].timestamp == events[i].timestamp && r[i].dimensions == events[i].dimensions && Carries(r[i], id)
  {
    seq(|events|, i requires 0 <= i < |events| =>
      StampedEvent(events[i].timestamp, events[i].dimensions,
                   id.applicationId, id.sessionId, id.visitorId, id.labelService))
  }

  /** The tracker event a stamped event was made from. */
  function Unstamped(e: StampedEvent): TrackerEvent {
    TrackerEvent(e.timestamp, e.dimensions)
  }

  function UnstampAll(body: seq<StampedEvent>): seq<TrackerEvent> {
    if body == [] then [] else [Unstamped(body[0])] + UnstampAll(body[1..])
  }

  class Analytics {
    var applicationId: Option<string>
    var visitorId: Option<string>
    var sessionId: Option<string>
    var labelService: Option<string>
    var afk: int
    /** The browser's `localStorage`. */
    var store: map<string, string>

    ghost predicate Valid()
      reads this
    {
      ExpiryReadable(store)
    }

    function Snapshot(): Identity
      reads this
    {
      Identity(applicationId, visitorId, sessionId, labelService, afk, store)
    }

    /** `new Analytics()` on a page whose `localStorage` holds `store`. */
    constructor (store: map<string, string>)
      requires ExpiryReadable(store)
      ensures Valid() && Snapshot() == Initial(store)
    {
      applicationId := None;
      visitorId := None;
      sessionId := None;
      labelService := None;
      afk := DefaultAfk;
      this.store := store;
    }

    method GetApplicationId() returns (r: Result<string, Error>)
      ensures r.Success? <==> Truthy(applicationId)
      ensures r.Success? ==> applicationId == Some(r.value)
      ensures r.Failure? ==> r.error == ApplicationIdNotDefined
    {
      if !Truthy(applicationId) {
        return Failure(ApplicationIdNotDefined);
      }
      return Success(applicationId.value);
    }

    method GetSessionId() returns (r: Option<string>)
      ensures r == sessionId
    {
      return sessionId;
    }

    method HandleActiveUser(now: int, newId: Uuid)
      requires Valid()
      modifies this
      ensures Valid()
      ensures Snapshot() == AfterActivity(old(Snapshot()), now, newId)
    {
      var fiveMinutesFromNow := now + afk * 1000;
      var sessionExpiration := if ExpirationKey in store then Decimal.ToNumber(store[ExpirationKey]).value else 0;
      if sessionExpiration < now {
        store := store[SessionKey := newId];
        var id := Lookup(store, SessionKey);
        if Truthy(id) {
          sessionId := id;
        }
      }
      store := store[ExpirationKey := Decimal.FromInt(fiveMinutesFromNow)];
      Decimal.RoundTrip(fiveMinutesFromNow);
    }

    method Register(applicationId: string, labelService: string, afk: Option<int>,
                    now: int, freshVisitor: Uuid, freshSession: Uuid) returns (r: Outcome<Error>)
      requires Valid()
      modifies this
      ensures Valid()
      ensures var res := AfterRegister(old(Snapshot()), applicationId, labelService, afk, now, freshVisitor, freshSession);
        match res
        case Failure(e) => r == Fail(e) && Snapshot() == old(Snapshot())
        case Success(t) => r == Pass && Snapshot() == t
    {
      if applicationId == "" {
        return Fail(ApplicationIdRequired);
      }
      if labelService == "" {
        return Fail(LabelServiceRequired);
      }
      visitorId := Lookup(store, VisitorReadKey);
      if !Truthy(visitorId) {
        store := store[VisitorWriteKey := freshVisitor];
        visitorId := Some(freshVisitor);
      }
      this.applicationId := Some(applicationId);
      this.labelService := Some(labelService);
      if afk.Some? && afk.value != 0 {
        this.afk := afk.value;
      }
      HandleActiveUser(now, freshSession);
      var id := Lookup(store, SessionKey);
      if Truthy(id) {
        sessionId := id;
      }
      return Pass;
    }

    /** The request `sendAnalyticsEvent(events)` hands to `fetch`; nothing in the object changes. */
    method SendAnalyticsEvent(events: seq<TrackerEvent>) returns (req: Request)
      ensures req.url == ApiUrl + EventPath && req.httpMethod == "POST" && req.contentType == "application/json"
      ensures req.applicationIdHeader == if applicationId.Some? then applicationId.value else ""
      ensures |req.body| == |events|
      ensures forall i :: 0 <= i < |events| ==>
        Unstamped(req.body[i]) == events[i] && Carries(req.body[i], Snapshot())
    {
      var mapped := Stamp(events, Snapshot());
      var header := if applicationId.Some? then applicationId.value else "";
      req := Request(ApiUrl + EventPath, "POST", "application/json", header, mapped);
    }
  }

  // Properties of the specification functions.

  /** Stamping keeps every event, in order: removing the identity fields gives back the input. */
  lemma {:induction false} StampKeepsEvents(events: seq<TrackerEvent>, id: Identity)
    ensures UnstampAll(Stamp(events, id)) == events
  {
    if events != [] {
      assert Stamp(events, id)[1..] == Stamp(events[1..], id);
      StampKeepsEvents(events[1..], id);
    }
  }

  /** A registration replaces `afk` only with a present, non-zero option, and stores the expiry with the new value. */
  lemma RegisterAfk(s: Identity, applicationId: string, labelService: string, afk: Option<int>,
                    now: int, freshVisitor: Uuid, freshSession: Uuid)
    requires ExpiryReadable(s.store)
    requires applicationId != "" && labelService != ""
    ensures var t := AfterRegister(s, applicationId, labelService, afk, now, freshVisitor, freshSession).value;
      t.afk == (if afk.Some? && afk.value != 0 then afk.value else s.afk) &&
      StoredExpiry(t.store) == now + t.afk * 1000
  {
  }

  /**
   * The visitor id: a non-empty stored `analytics-visitorid` is adopted and no
   * visitor key is written; otherwise the fresh id is adopted and written under
   * `visitor-id`, leaving `analytics-visitorid` as it was.
   */
  lemma RegisterVisitor(s: Identity, applicationId: string, labelService: string, afk: Option<int>,
                        now: int, freshVisitor: Uuid, freshSession: Uuid)
    requires ExpiryReadable(s.store)
    requires applicationId != "" && labelService != ""
    ensures var t := AfterRegister(s, applicationId, labelService, afk, now, freshVisitor, freshSession).value;
      Lookup(t.store, VisitorReadKey) == Lookup(s.store, VisitorReadKey) &&
      (Truthy(Lookup(s.store, VisitorReadKey)) ==>
        t.visitorId == Lookup(s.store, VisitorReadKey) &&
        Lookup(t.store, VisitorWriteKey) == Lookup(s.store, VisitorWriteKey)) &&
      (!Truthy(Lookup(s.store, VisitorReadKey)) ==>
        t.visitorId == Some(freshVisitor) && Lookup(t.store, VisitorWriteKey) == Some(freshVisitor))
  {
  }

  /**
   * Because the new visitor id is written under a different key from the one
   * read, a store without `analytics-visitorid` gets a new visitor id on every
   * registration.
   */
  lemma VisitorRerolled(s: Identity, applicationId: string, labelService: string, afk: Option<int>,
                        now1: int, visitor1: Uuid, session1: Uuid,
                        now2: int, visitor2: Uuid, session2: Uuid)
    requires ExpiryReadable(s.store)
    requires applicationId != "" && labelService != ""
    requires !Truthy(Lookup(s.store, VisitorReadKey))
    ensures var t1 := AfterRegister(s, applicationId, labelService, afk, now1, visitor1, session1).value;
      var t2 := AfterRegister(t1, applicationId, labelService, afk, now2, visitor2, session2).value;
      t1.visitorId == Some(visitor1) && t2.visitorId == Some(visitor2)
  {
  }

  /**
   * The session id after a registration: a lapsed session yields the fresh id;
   * otherwise a non-empty stored `analytics-sessionid` is adopted, and failing
   * that the in-memory id is kept.
   */
  lemma RegisterSession(s: Identity, applicationId: string, labelService: string, afk: Option<int>,
                        now: int, freshVisitor: Uuid, freshSession: Uuid)
    requires ExpiryReadable(s.store)
    requires applicationId != "" && labelService != ""
    ensures var t := AfterRegister(s, applicationId, labelService, afk, now, freshVisitor, freshSession).value;
      (Lapsed(s.store, now) ==> t.sessionId == Some(freshSession)) &&
      (!Lapsed(s.store, now) && Truthy(Lookup(s.store, SessionKey)) ==> t.sessionId == Lookup(s.store, SessionKey)) &&
      (!Lapsed(s.store, now) && !Truthy(Lookup(s.store, SessionKey)) ==> t.sessionId == s.sessionId)
  {
  }

  /**
   * A first registration on a store with no visitor id and no expiry, at a
   * positive time: the identity is the given names, the fresh visitor id and
   * the fresh session id, and the session expires `afk` seconds from now.
   */
  lemma FirstRegistration(store: map<string, string>, applicationId: string, labelService: string,
                          now: int, freshVisitor: Uuid, freshSession: Uuid)
    requires VisitorReadKey !in store && ExpirationKey !in store
    requires applicationId != "" && labelService != "" && now > 0
    ensures var t := AfterRegister(Initial(store), applicationId, labelService, None, now, freshVisitor, freshSession).value;
      t.applicationId == Some(applicationId) && t.labelService == Some(labelService) &&
      t.visitorId == Some(freshVisitor) && t.sessionId == Some(freshSession) &&
      StoredExpiry(t.store) == now + DefaultAfk * 1000
  {
  }

  /**
   * Two consecutive activity signals at `t1` and then `t2`: the second rotates
   * the session exactly when more than `afk` seconds separate them.
   */
  lemma ConsecutiveActivity(s: Identity, t1: int, f1: Uuid, t2: int, f2: Uuid)
    requires ExpiryReadable(s.store)
    ensures var s1 := AfterActivity(s, t1, f1);
      var s2 := AfterActivity(s1, t2, f2);
      (Lapsed(s1.store, t2) <==> t1 + s.afk * 1000 < t2) &&
      (t1 + s.afk * 1000 < t2 ==> s2.sessionId == Some(f2) && Lookup(s2.store, SessionKey) == Some(f2)) &&
      (t2 <= t1 + s.afk * 1000 ==> s2.sessionId == s1.sessionId && Lookup(s2.store, SessionKey) == Lookup(s1.store, SessionKey))
  {
  }

  /** The state after activity signals at each of `times`, the i-th drawing `ids[i]` if it rotates. */
  function Activities(s: Identity, times: seq<int>, ids: seq<Uuid>): (t: Identity)
    requires ExpiryReadable(s.store) && |ids| == |times|
    ensures ExpiryReadable(t.store) && t.afk == s.afk
    decreases |times|
  {
    if times == [] then s else Activities(AfterActivity(s, times[0], ids[0]), times[1..], ids[1..])
  }

  /** Every activity signal comes within the stored expiry window: no gap exceeds `afk` seconds. */
  predicate SteadyActivity(s: Identity, times: seq<int>)
    requires ExpiryReadable(s.store)
  {
    (|times| > 0 ==> times[0] <= StoredExpiry(s.store)) &&
    forall i :: 0 <= i < |times| - 1 ==> times[i + 1] <= times[i] + s.afk * 1000
  }

  /** A run of activity with no gap above the idle timeout keeps the session id, in memory and in the store. */
  lemma {:induction false} SteadyActivityKeepsSession(s: Identity, times: seq<int>, ids: seq<Uuid>)
    requires ExpiryReadable(s.store) && |ids| == |times|
    requires SteadyActivity(s, times)
    decreases |times|
    ensures var t := Activities(s, times, ids);
      t.sessionId == s.sessionId && Lookup(t.store, SessionKey) == Lookup(s.store, SessionKey)
  {
    if times != [] {
      var s1 := AfterActivity(s, times[0], ids[0]);
      assert SteadyActivity(s1, times[1..]) by {
        var rest := times[1..];
        forall i | 0 <= i < |rest| - 1
          ensures rest[i + 1] <= rest[i] + s1.afk * 1000
        {
          assert rest[i] == times[i + 1] && rest[i + 1] == times[i + 2];
        }
        if |rest| > 0 {
          assert rest[0] == times[1];
        }
      }
      SteadyActivityKeepsSession(s1, times[1..], ids[1..]);
    }
  }
}
