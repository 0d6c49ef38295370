/** The webhook outbox: endpoints, events and their initial deliveries. */
module Outbox {
  import opened Wrappers
  import opened RequestStates

  datatype Endpoint = Endpoint(active: bool, subscribed: set<PublicState>)

  /** `audience` records which endpoints were active and subscribed at creation. */
  datatype Event = Event(request: nat, state: PublicState, audience: set<nat>)

  datatype DeliveryStatus = Pending | Delivering | Delivered | Undeliverable | Dead

  datatype Delivery = Delivery(event: nat, endpoint: nat, status: DeliveryStatus, attempt: nat, maxAttempts: nat,
                               nextAttemptAt: int)

  datatype Box = Box(endpoints: seq<Endpoint>, events: seq<Event>, deliveries: seq<Delivery>)

  const DELIVERY_BACKOFF_MS: seq<int> := [60_000, 300_000, 900_000, 1_800_000, 3_600_000, 21_600_000]

  predicate AnyActive(endpoints: seq<Endpoint>) {
    exists i :: 0 <= i < |endpoints| && endpoints[i].active
  }

  predicate Listens(e: Endpoint, state: PublicState) { e.active && state in e.subscribed }

  function Audience(endpoints: seq<Endpoint>, state: PublicState): set<nat> {
    set i: nat | i < |endpoints| && Listens(endpoints[i], state)
  }

  function InitialDelivery(event: nat, endpoint: nat, now: int): Delivery {
    Delivery(event, endpoint, Pending, 0, |DELIVERY_BACKOFF_MS|, now)
  }

  /** One pending delivery for each listening endpoint, in registration order. */
  function InitialDeliveries(endpoints: seq<Endpoint>, event: nat, state: PublicState, now: int): seq<Delivery> {
    if endpoints == [] then []
    else InitialDeliveries(endpoints[..|endpoints| - 1], event, state, now)
         + (if Listens(endpoints[|endpoints| - 1], state) then [InitialDelivery(event, |endpoints| - 1, now)] else [])
  }

  /** No event is recorded for a tenant without an active endpoint. */
  function Emitted(b: Box, request: nat, state: PublicState, now: int): Box {
    if !AnyActive(b.endpoints) then b
    else b.(events := b.events + [Event(request, state, Audience(b.endpoints, state))],
            deliveries := b.deliveries + InitialDeliveries(b.endpoints, |b.events|, state, now))
  }

  class OutboxTables {
    var endpoints: seq<Endpoint>
    var events: seq<Event>
    var deliveries: seq<Delivery>

    constructor ()
      ensures Contents() == Box([], [], [])
    {
      endpoints, events, deliveries := [], [], [];
    }

    ghost function Contents(): Box
      reads this
    {
      Box(endpoints, events, deliveries)
    }

    method EmitEvent(request: nat, state: PublicState, now: int)
      modifies this
      ensures Contents() == Emitted(old(Contents()), request, state, now)
    {
      hide LiveIds, DeliveriesFor, InitialDeliveries, Audience;
      NoneLive(endpoints);
      var live: seq<nat> := [];
      for i := 0 to |endpoints|
        invariant Contents() == old(Contents()) && i <= |endpoints|
        invariant live == LiveIds(endpoints[..i])
      {
        LiveStep(endpoints, i);
        if endpoints[i].active { live := live + [i]; }
      }
      assert endpoints[..|endpoints|] == endpoints;
      NoLiveIffNoneActive(endpoints);
      if |live| == 0 {
        return;
      }
      var event := |events|;
      events := events + [Event(request, state, Audience(endpoints, state))];
      ghost var before := deliveries;
      LiveIdsBound(endpoints);
      DeliveriesStart(endpoints, live[..0], event, state, now);
      for k := 0 to |live|
        invariant endpoints == old(endpoints) && live == LiveIds(endpoints)
        invariant events == old(events) + [Event(request, state, Audience(endpoints, state))]
        invariant deliveries == before + DeliveriesFor(endpoints, live[..k], event, state, now)
      {
        DeliveriesStep(endpoints, live, k, event, state, now);
        if state in endpoints[live[k]].subscribed {
          deliveries := deliveries + [Delivery(event, live[k], Pending, 0, |DELIVERY_BACKOFF_MS|, now)];
        }
      }
      assert live[..|live|] == live;
      DeliveriesForLive(endpoints, event, state, now);
    }
  }

  // -------------------------------------------------- the loop's two filters

  function LiveIds(endpoints: seq<Endpoint>): seq<nat> {
    if endpoints == [] then []
    else LiveIds(endpoints[..|endpoints| - 1]) + (if endpoints[|endpoints| - 1].active then [|endpoints| - 1] else [])
  }

  function DeliveriesFor(endpoints: seq<Endpoint>, ids: seq<nat>, event: nat, state: PublicState,
                         now: int): seq<Delivery>
    requires forall i :: 0 <= i < |ids| ==> ids[i] < |endpoints|
  {
    if ids == [] then []
    else
      var id := ids[|ids| - 1];
      DeliveriesFor(endpoints, ids[..|ids| - 1], event, state, now)
      + (if state in endpoints[id].subscribed then [InitialDelivery(event, id, now)] else [])
  }

  lemma NoneLive(endpoints: seq<Endpoint>)
    ensures LiveIds(endpoints[..0]) == []
  {}

  lemma LiveStep(endpoints: seq<Endpoint>, i: nat)
    requires i < |endpoints|
    ensures LiveIds(endpoints[..i + 1]) == LiveIds(endpoints[..i]) + (if endpoints[i].active then [i] else [])
  {
    assert endpoints[..i + 1][..i] == endpoints[..i];
  }

  lemma DeliveriesStart(endpoints: seq<Endpoint>, ids: seq<nat>, event: nat, state: PublicState, now: int)
    requires ids == []
    ensures DeliveriesFor(endpoints, ids, event, state, now) == []
  {}

  lemma DeliveriesStep(endpoints: seq<Endpoint>, ids: seq<nat>, k: nat, event: nat, state: PublicState, now: int)
    requires k < |ids| && forall i :: 0 <= i < |ids| ==> ids[i] < |endpoints|
    ensures DeliveriesFor(endpoints, ids[..k + 1], event, state, now)
         == DeliveriesFor(endpoints, ids[..k], event, state, now)
            + (if state in endpoints[ids[k]].subscribed then [InitialDelivery(event, ids[k], now)] else [])
  {
    assert ids[..k + 1][..k] == ids[..k];
  }

  lemma LiveIdsBound(endpoints: seq<Endpoint>)
    ensures forall i :: 0 <= i < |LiveIds(endpoints)| ==> LiveIds(endpoints)[i] < |endpoints|
  {}

  lemma {:induction false} NoLiveIffNoneActive(endpoints: seq<Endpoint>)
    ensures |LiveIds(endpoints)| == 0 <==> !AnyActive(endpoints)
  {
    if endpoints != [] {
      var init := endpoints[..|endpoints| - 1];
      NoLiveIffNoneActive(init);
      if AnyActive(init) {
        var i :| 0 <= i < |init| && init[i].active;
        assert endpoints[i].active;
      }
      if AnyActive(endpoints) && !endpoints[|endpoints| - 1].active {
        var i :| 0 <= i < |endpoints| && endpoints[i].active;
        assert init[i].active;
      }
    }
  }

  lemma {:induction false} DeliveriesForPrefix(endpoints: seq<Endpoint>, more: seq<Endpoint>, ids: seq<nat>,
                                               event: nat, state: PublicState, now: int)
    requires forall i :: 0 <= i < |ids| ==> ids[i] < |endpoints|
    ensures DeliveriesFor(endpoints + more, ids, event, state, now) == DeliveriesFor(endpoints, ids, event, state, now)
  {
    if ids != [] { DeliveriesForPrefix(endpoints, more, ids[..|ids| - 1], event, state, now); }
  }

  lemma {:induction false} DeliveriesForLive(endpoints: seq<Endpoint>, event: nat, state: PublicState, now: int)
    requires forall i :: 0 <= i < |LiveIds(endpoints)| ==> LiveIds(endpoints)[i] < |endpoints|
    ensures DeliveriesFor(endpoints, LiveIds(endpoints), event, state, now)
            == InitialDeliveries(endpoints, event, state, now)
  {
    if endpoints != [] {
      var init, last := endpoints[..|endpoints| - 1], endpoints[|endpoints| - 1];
      assert endpoints == init + [last];
      LiveIdsBound(init);
      DeliveriesForLive(init, event, state, now);
      DeliveriesForPrefix(init, [last], LiveIds(init), event, state, now);
      if last.active {
        var ids := LiveIds(endpoints);
        assert ids[..|ids| - 1] == LiveIds(init);
      } else {
        assert LiveIds(endpoints) == LiveIds(init);
      }
    }
  }

  // ------------------------------------------------------------- invariants

  function CountFor(ds: seq<Delivery>, event: nat, endpoint: nat): nat {
    if ds == [] then 0
    else CountFor(ds[..|ds| - 1], event, endpoint)
         + (if ds[|ds| - 1].event == event && ds[|ds| - 1].endpoint == endpoint then 1 else 0)
  }

  /** Each event has exactly one initial delivery for each endpoint of its audience, and no other. */
  ghost predicate DeliveriesMatch(b: Box) {
    && (forall i :: 0 <= i < |b.deliveries| ==> b.deliveries[i].event < |b.events|)
    && (forall e: nat, k: nat :: e < |b.events| ==>
          CountFor(b.deliveries, e, k) == if k in b.events[e].audience then 1 else 0)
  }

  lemma {:induction false} CountAppend(a: seq<Delivery>, c: seq<Delivery>, event: nat, endpoint: nat)
    ensures CountFor(a + c, event, endpoint) == CountFor(a, event, endpoint) + CountFor(c, event, endpoint)
  {
    if c == [] { assert a + c == a; }
    else {
      CountAppend(a, c[..|c| - 1], event, endpoint);
      assert (a + c)[..|a + c| - 1] == a + c[..|c| - 1] && (a + c)[|a + c| - 1] == c[|c| - 1];
    }
  }

  lemma CountNone(ds: seq<Delivery>, event: nat, endpoint: nat)
    requires forall i :: 0 <= i < |ds| ==> ds[i].event != event
    ensures CountFor(ds, event, endpoint) == 0
  {}

  lemma {:induction false} InitialCounts(endpoints: seq<Endpoint>, event: nat, state: PublicState, now: int, k: nat)
    ensures var ds := InitialDeliveries(endpoints, event, state, now);
            && CountFor(ds, event, k) == (if k < |endpoints| && Listens(endpoints[k], state) then 1 else 0)
            && (forall i :: 0 <= i < |ds| ==> ds[i].event == event)
  {
    if endpoints != [] {
      var init, last := endpoints[..|endpoints| - 1], endpoints[|endpoints| - 1];
      InitialCounts(init, event, state, now, k);
      if Listens(last, state) {
        var d := InitialDelivery(event, |init|, now);
        CountAppend(InitialDeliveries(init, event, state, now), [d], event, k);
        assert [d][..0] == [];
        assert CountFor([d], event, k) == if k == |init| then 1 else 0;
      } else {
        assert InitialDeliveries(endpoints, event, state, now) == InitialDeliveries(init, event, state, now);
      }
    }
  }

  /** Recording an event keeps the match between events and initial deliveries. */
  lemma EmittedKeepsMatch(b: Box, request: nat, state: PublicState, now: int)
    requires DeliveriesMatch(b)
    ensures DeliveriesMatch(Emitted(b, request, state, now))
  {
    if AnyActive(b.endpoints) {
      var b' := Emitted(b, request, state, now);
      var added := InitialDeliveries(b.endpoints, |b.events|, state, now);
      InitialCounts(b.endpoints, |b.events|, state, now, 0);
      forall e: nat, k: nat | e < |b'.events|
        ensures CountFor(b'.deliveries, e, k) == if k in b'.events[e].audience then 1 else 0
      {
        CountAppend(b.deliveries, added, e, k);
        if e < |b.events| {
          CountNone(added, e, k);
        } else {
          CountNone(b.deliveries, e, k);
          InitialCounts(b.endpoints, e, state, now, k);
        }
      }
    }
  }

  /** States of the events recorded for a request, in order. */
  function EventStates(events: seq<Event>, request: nat): seq<PublicState> {
    if events == [] then []
    else EventStates(events[..|events| - 1], request)
         + (if events[|events| - 1].request == request then [events[|events| - 1].state] else [])
  }

  lemma EventStatesAppend(events: seq<Event>, e: Event, request: nat)
    ensures EventStates(events + [e], request)
            == EventStates(events, request) + (if e.request == request then [e.state] else [])
  {
    assert (events + [e])[..|events|] == events;
  }

  // ------------------------------------------------- histories and events

  /** Every request's events are the notifiable entries of its history, in order,
      and every event has its initial deliveries. */
  ghost predicate Mirrors(b: Box, histories: seq<seq<HistoryEntry>>) {
    Covered(b, histories)
    && forall r: nat :: r < |histories| ==> EventStates(b.events, r) == NotifiableStates(histories[r])
  }

  /** No request has more events than notifiable entries. */
  ghost predicate Covered(b: Box, histories: seq<seq<HistoryEntry>>) {
    && (forall i :: 0 <= i < |b.events| ==> b.events[i].request < |histories|)
    && (forall r: nat :: r < |histories| ==> |EventStates(b.events, r)| <= |NotifiableStates(histories[r])|)
    && DeliveriesMatch(b)
  }

  /** Some request has fewer. */
  ghost predicate Missing(b: Box, histories: seq<seq<HistoryEntry>>) {
    exists r: nat :: r < |histories| && |EventStates(b.events, r)| < |NotifiableStates(histories[r])|
  }

  /** Outbox and histories after request `r` reached `e.state`. */
  function Told(b: Box, r: nat, e: HistoryEntry): Box {
    if Notifiable(e.state) then Emitted(b, r, e.state, e.at) else b
  }

  lemma ToldCounts(b: Box, r: nat, e: HistoryEntry, k: nat)
    ensures EventStates(Told(b, r, e).events, k)
         == EventStates(b.events, k)
           + (if k == r && Notifiable(e.state) && AnyActive(b.endpoints) then [e.state] else [])
  {
    if Notifiable(e.state) && AnyActive(b.endpoints) {
      EventStatesAppend(b.events, Event(r, e.state, Audience(b.endpoints, e.state)), k);
    }
  }

  /** A change keeps outbox and histories in step exactly when somebody listens or
      nothing is to be told; a missing event is never made up for. */
  lemma ChangeTold(b: Box, histories: seq<seq<HistoryEntry>>, r: nat, e: HistoryEntry)
    requires Covered(b, histories) && r < |histories|
    ensures var b', h' := Told(b, r, e), histories[r := histories[r] + [e]];
            && Covered(b', h')
            && (Missing(b, histories) ==> Missing(b', h'))
            && (Notifiable(e.state) && !AnyActive(b.endpoints) ==> Missing(b', h'))
            && (Mirrors(b, histories) ==> (Mirrors(b', h') <==> AnyActive(b.endpoints) || !Notifiable(e.state)))
  {
    var b', h' := Told(b, r, e), histories[r := histories[r] + [e]];
    EmittedKeepsMatch(b, r, e.state, e.at);
    NotifiableAppend(histories[r], e);
    forall k: nat | k < |histories|
      ensures EventStates(b'.events, k)
           == EventStates(b.events, k)
             + (if k == r && Notifiable(e.state) && AnyActive(b.endpoints) then [e.state] else [])
    {
      ToldCounts(b, r, e, k);
    }
    assert Notifiable(e.state) && !AnyActive(b.endpoints) ==> |EventStates(b'.events, r)| < |NotifiableStates(h'[r])|;
    if Missing(b, histories) {
      var k: nat :| k < |histories| && |EventStates(b.events, k)| < |NotifiableStates(histories[k])|;
      assert |EventStates(b'.events, k)| < |NotifiableStates(h'[k])|;
    }
  }

  lemma NoEvents(events: seq<Event>, r: nat)
    requires forall i :: 0 <= i < |events| ==> events[i].request < r
    ensures EventStates(events, r) == []
  {}

  /** A new request has nothing to tell. */
  lemma RequestAdded(b: Box, histories: seq<seq<HistoryEntry>>, h: seq<HistoryEntry>)
    requires Covered(b, histories) && |h| == 1 && !Notifiable(h[0].state)
    ensures var h' := histories + [h];
            && Covered(b, h') && (Missing(b, histories) ==> Missing(b, h'))
            && (Mirrors(b, histories) ==> Mirrors(b, h'))
  {
    NoEvents(b.events, |histories|);
    NotifiableAppend([], h[0]);
    assert [] + [h[0]] == h;
    if Missing(b, histories) {
      var k: nat :| k < |histories| && |EventStates(b.events, k)| < |NotifiableStates(histories[k])|;
      assert (histories + [h])[k] == histories[k];
    }
  }

  /** Nothing told and nothing written. */
  lemma NothingTold(b: Box, b': Box, histories: seq<seq<HistoryEntry>>)
    requires b'.events == b.events && b'.deliveries == b.deliveries
    ensures Covered(b', histories) <==> Covered(b, histories)
    ensures Missing(b', histories) <==> Missing(b, histories)
    ensures Mirrors(b', histories) <==> Mirrors(b, histories)
  {}

  lemma MirrorsOrMissing(b: Box, histories: seq<seq<HistoryEntry>>)
    ensures Missing(b, histories) ==> !Mirrors(b, histories)
  {}

  /** What a step does to the agreement between outbox and histories. */
  ghost predicate Tells(b: Box, h: seq<seq<HistoryEntry>>, b': Box, h': seq<seq<HistoryEntry>>, missed: bool) {
    && Covered(b', h')
    && (Missing(b, h) || missed ==> Missing(b', h'))
    && (Mirrors(b, h) && !missed ==> Mirrors(b', h'))
  }
}
