/** Producing an event and firing a schedule: the plan limits, the checksum, and the fan-out, on
    the database that they update in place. Identifiers drawn at random are parameters. */
module ProduceServices {
  import opened Options
  import opened Json
  import opened Checksum
  import opened Schema
  import opened ClaimSelection
  import opened QueueEngine
  import opened Protocol
  import opened RowAgreement
  import ProduceCalls

  // ---------------------------------------------------------------- fan-out

  /** `ids` draws new row identifiers, one per consumer. */
  ghost predicate DrawsNew(t: Tables, page: seq<Id>, ids: Id -> Id) {
    && (forall c :: c in page ==> ids(c) !in t.deliveries)
    && (forall b, c :: b in page && c in page && ids(b) == ids(c) ==> b == c)
  }

  /** Exactly one pending row for each of the first `n` targets was added. */
  ghost predicate FannedOut(t: Tables, u: Tables, e: Id, tenant: Id, targets: seq<Id>, n: nat, ids: Id -> Id, at: Time)
    requires n <= |targets|
  {
    && u.events == t.events && u.deadLetters == t.deadLetters && u.consumers == t.consumers
    && (forall d :: d in t.deliveries ==> d in u.deliveries && u.deliveries[d] == t.deliveries[d])
    && (forall i :: 0 <= i < n ==>
          ids(targets[i]) in u.deliveries
          && u.deliveries[ids(targets[i])] == Delivery(tenant, e, targets[i], Pending, 0, at, None, None))
    && (forall d :: d in u.deliveries && d !in t.deliveries ==> exists i :: 0 <= i < n && d == ids(targets[i]))
  }

  /** `Promise.all` over the consumers: each insert succeeds, as the rows it refers to exist. */
  method FanOut(queue: PostgresQueueEngine, e: Id, tenant: Id, topic: Id, payload: Value, targets: seq<Id>,
                ids: Id -> Id,
                at: Time)
    requires Distinct(targets) && DrawsNew(queue.db.Snapshot(), targets, ids)
    requires e in queue.db.events && forall c :: c in targets ==> c in queue.db.consumers
    modifies queue.db
    ensures queue.db.now == old(queue.db.now)
    ensures FannedOut(old(queue.db.Snapshot()), queue.db.Snapshot(), e, tenant, targets, |targets|, ids, at)
  {
    ghost var before := queue.db.Snapshot();
    for i := 0 to |targets|
      invariant queue.db.now == old(queue.db.now)
      invariant FannedOut(before, queue.db.Snapshot(), e, tenant, targets, i, ids, at)
    {
      var c := targets[i];
      assert c in targets;
      FreshTarget(before, queue.db.Snapshot(), e, tenant, targets, i, ids, at);
      var inserted := queue.Enqueue(ClaimedEvent(ids(c), e, tenant, topic, c, payload, 0, at));
      assert inserted;
    }
  }

  lemma FreshTarget(t: Tables, u: Tables, e: Id, tenant: Id, targets: seq<Id>, i: nat, ids: Id -> Id, at: Time)
    requires i < |targets| && Distinct(targets) && DrawsNew(t, targets, ids)
    requires FannedOut(t, u, e, tenant, targets, i, ids, at)
    ensures ids(targets[i]) !in u.deliveries
    ensures forall j :: 0 <= j < i ==> ids(targets[j]) != ids(targets[i])
  {
    assert targets[i] in targets;
    forall j | 0 <= j < i ensures ids(targets[j]) != ids(targets[i]) {
      assert targets[j] in targets;
    }
  }

  /** One page of `findByTopicId`: live consumers of the tenant's topic, at most `limit` of them. */
  ghost predicate IsPage(t: Tables, topic: Id, tenant: Id, limit: nat, page: seq<Id>) {
    && Distinct(page) && |page| <= limit
    && forall c :: c in page ==>
         c in t.consumers && t.consumers[c].topic == topic && t.consumers[c].tenant == tenant && !t.consumers[c].deleted
  }

  function ActiveOf(t: Tables, page: seq<Id>): (r: seq<Id>)
    ensures forall c :: c in r <==> c in page && c in t.consumers && t.consumers[c].active
    ensures Distinct(page) ==> Distinct(r)
  {
    if page == [] then [] else
      assert page == [page[0]] + page[1..];
      var rest := ActiveOf(t, page[1..]);
      if page[0] in t.consumers && t.consumers[page[0]].active then [page[0]] + rest else rest
  }

  // ---------------------------------------------------------------- plan limits

  datatype Tenant = Tenant(plan: string, maxPayloadBytesOverride: Option<nat>)

  datatype LimitCheck = TenantMissing | LimitExceeded | WithinLimit

  class UsageService {
    const tenants: map<Id, Tenant>
    const planEventsLimit: map<string, nat>
    const planPayloadLimits: map<string, nat>

    constructor (tenants: map<Id, Tenant>, planEventsLimit: map<string, nat>, planPayloadLimits: map<string, nat>)
      ensures this.tenants == tenants
      ensures this.planEventsLimit == planEventsLimit && this.planPayloadLimits == planPayloadLimits
    {
      this.tenants, this.planEventsLimit, this.planPayloadLimits := tenants, planEventsLimit, planPayloadLimits;
    }

    /** A plan without a configured limit allows nothing. */
    function GetPlanLimit(tenant: Id): (limit: Option<nat>)
      ensures limit.Some? <==> tenant in tenants
      ensures limit.Some? && tenants[tenant].plan !in planEventsLimit ==> limit.value == 0
      ensures limit.Some? && tenants[tenant].plan in planEventsLimit ==>
        limit.value == planEventsLimit[tenants[tenant].plan]
    {
      if tenant !in tenants then None
      else Some(if tenants[tenant].plan in planEventsLimit then planEventsLimit[tenants[tenant].plan] else 0)
    }

    /** A tenant's own override comes before its plan's limit, even one of zero. */
    function GetPayloadLimit(tenant: Id): (limit: Option<nat>)
      ensures limit.Some? <==> tenant in tenants
      ensures limit.Some? && tenants[tenant].maxPayloadBytesOverride.Some? ==>
        limit == tenants[tenant].maxPayloadBytesOverride
      ensures limit.Some? && tenants[tenant].maxPayloadBytesOverride.None? ==>
        var plan := tenants[tenant].plan;
        && (plan in planPayloadLimits ==> limit.value == planPayloadLimits[plan])
        && (plan !in planPayloadLimits ==> limit.value == 0)
    {
      if tenant !in tenants then None
      else
        var t := tenants[tenant];
        Some(if t.maxPayloadBytesOverride.Some? then t.maxPayloadBytesOverride.value
             else if t.plan in planPayloadLimits then planPayloadLimits[t.plan] else 0)
    }

    /** `monthly` is the tenant's event count of this month. */
    function AssertWithinLimit(tenant: Id, monthly: nat, incoming: nat): (r: LimitCheck)
      ensures r.WithinLimit? <==> exists limit :: GetPlanLimit(tenant) == Some(limit) && monthly + incoming <= limit
      ensures r.TenantMissing? <==> tenant !in tenants
    {
      match GetPlanLimit(tenant)
      case None => TenantMissing
      case Some(limit) => if ProduceCalls.WithinLimit(monthly, incoming, limit) then WithinLimit else LimitExceeded
    }
  }

  // ---------------------------------------------------------------- produce

  datatype ProduceRequest = ProduceRequest(tenant: Id, topic: Id, payload: Value, payloadBytes: nat, key: Option<Id>)

  datatype ProduceResult =
    | Refused(check: LimitCheck) | NoSuchTopic | PayloadTooLarge | Existing(event: Id) | Produced(event: Id)

  const PRODUCE_PAGE := 100

  /** Events of the tenant under the key. */
  predicate HasKey(t: Tables, e: Id, tenant: Id, key: Option<Id>) {
    e in t.events && key.Some? && t.events[e].key == key && t.events[e].tenant == tenant
  }

  /** The tables with a new event that no delivery refers to yet. */
  function WithEvent(t: Tables, e: Id, tenant: Id, topic: Id, payload: Value, checksum: Digest,
                     key: Option<Id>): Tables {
    t.(events := t.events[e := Event(tenant, topic, payload, checksum, key, EventPending, None, None)])
  }

  /** The new event is stored, each of these consumers has one first attempt of it, due at `at`, and
      nothing else changes. */
  ghost predicate StoredFor(t: Tables, u: Tables, e: Id, event: Event, consumers: set<Id>, ids: Id -> Id, at: Time) {
    && u.events == t.events[e := event] && u.deadLetters == t.deadLetters && u.consumers == t.consumers
    && (forall d :: d in t.deliveries ==> d in u.deliveries && u.deliveries[d] == t.deliveries[d])
    && (forall c :: c in consumers ==>
          ids(c) in u.deliveries
          && u.deliveries[ids(c)] == Delivery(event.tenant, e, c, Pending, 0, at, None, None))
    && (forall d :: d in u.deliveries && d !in t.deliveries ==> exists c :: c in consumers && d == ids(c))
  }

  /** No two events of one tenant have the same key. */
  ghost predicate KeysApart(events: map<Id, Event>) {
    forall e, f ::
      e in events && f in events && e != f && events[e].key.Some? && events[e].key == events[f].key ==>
        events[e].tenant != events[f].tenant
  }

  lemma NewKeyStaysApart(events: map<Id, Event>, e: Id, event: Event)
    requires e !in events
    requires event.key.Some? ==>
      forall f :: f in events ==> !(events[f].tenant == event.tenant && events[f].key == event.key)
    ensures KeysApart(events) ==> KeysApart(events[e := event])
  {
  }

  lemma FannedOutStored(t: Tables, u: Tables, e: Id, event: Event, targets: seq<Id>, consumers: set<Id>, ids: Id -> Id,
                        at: Time)
    requires forall c :: c in targets <==> c in consumers
    requires FannedOut(t.(events := t.events[e := event]), u, e, event.tenant, targets, |targets|, ids, at)
    ensures StoredFor(t, u, e, event, consumers, ids, at)
  {
    forall c | c in consumers
      ensures ids(c) in u.deliveries
      ensures u.deliveries[ids(c)] == Delivery(event.tenant, e, c, Pending, 0, at, None, None)
    {
      var i :| 0 <= i < |targets| && targets[i] == c;
    }
    forall d | d in u.deliveries && d !in t.deliveries ensures exists c :: c in consumers && d == ids(c) {
      var i :| 0 <= i < |targets| && d == ids(targets[i]);
      assert targets[i] in targets;
    }
  }

  /** The insert of a new event and its fan-out to these consumers. */
  method Store(queue: PostgresQueueEngine, e: Id, event: Event, targets: seq<Id>, ids: Id -> Id, at: Time)
    requires Distinct(targets) && DrawsNew(queue.db.Snapshot(), targets, ids) && e !in queue.db.events
    requires forall c :: c in targets ==> c in queue.db.consumers
    modifies queue.db
    ensures queue.db.now == old(queue.db.now)
    ensures FannedOut(old(queue.db.Snapshot()).(events := old(queue.db.events)[e := event]), queue.db.Snapshot(),
              e, event.tenant, targets, |targets|, ids, at)
    ensures StoredFor(old(queue.db.Snapshot()), queue.db.Snapshot(), e, event, (set c | c in targets), ids, at)
  {
    ghost var before := queue.db.Snapshot();
    queue.db.events := queue.db.events[e := event];
    FanOut(queue, e, event.tenant, event.topic, event.payload, targets, ids, at);
    FannedOutStored(before, queue.db.Snapshot(), e, event, targets, (set c | c in targets), ids, at);
  }

  lemma ActiveTargets(t: Tables, topic: Id, tenant: Id, page: seq<Id>, ids: Id -> Id)
    requires IsPage(t, topic, tenant, PRODUCE_PAGE, page) && DrawsNew(t, page, ids)
    ensures var active := ActiveOf(t, page);
      && Distinct(active) && DrawsNew(t, active, ids) && (forall c :: c in active ==> c in t.consumers)
      && (set c | c in active) == set c | c in page && t.consumers[c].active
  {
  }

  class EventService {
    const queue: PostgresQueueEngine
    const usage: UsageService
    const hash: Hash

    constructor (queue: PostgresQueueEngine, usage: UsageService, hash: Hash)
      ensures this.queue == queue && this.usage == usage && this.hash == hash
    {
      this.queue, this.usage, this.hash := queue, usage, hash;
    }

    /** The payload limit of a tenant that the limit check found. */
    function PayloadLimit(tenant: Id): (limit: nat)
      ensures usage.GetPayloadLimit(tenant).Some? ==> limit == usage.GetPayloadLimit(tenant).value
    {
      var limit := usage.GetPayloadLimit(tenant);
      if limit.Some? then limit.value else 0
    }

    /** `findByIdempotencyKey`, within the tenant. */
    method FindByIdempotencyKey(key: Id, tenant: Id) returns (found: Option<Id>)
      ensures found.Some? ==>
        && found.value in queue.db.events
        && queue.db.events[found.value].tenant == tenant && queue.db.events[found.value].key == Some(key)
      ensures found.None? ==> forall f :: f in queue.db.events ==>
        !(queue.db.events[f].tenant == tenant && queue.db.events[f].key == Some(key))
    {
      var rows := set f |
        f in queue.db.events && queue.db.events[f].tenant == tenant && queue.db.events[f].key == Some(key);
      if rows == {} {
        assert forall f :: f in queue.db.events ==> f !in rows;
        return None;
      }
      var f :| f in rows;
      found := Some(f);
    }

    /** The limit check, the topic, the payload size and the key lookup, in this order; None when the
        event is to be stored. */
    method Screen(request: ProduceRequest, monthly: nat, topics: map<Id, Id>) returns (answer: Option<ProduceResult>)
      ensures var check := usage.AssertWithinLimit(request.tenant, monthly, 1);
        var fits := request.payloadBytes <= PayloadLimit(request.tenant);
        if !check.WithinLimit? then answer == Some(Refused(check))
        else if !(request.topic in topics && topics[request.topic] == request.tenant) then answer == Some(NoSuchTopic)
        else if !fits then answer == Some(PayloadTooLarge)
        else answer.None? || answer.value.Existing?
      ensures answer.Some? && answer.value.Existing? ==>
        && request.key.Some? && answer.value.event in queue.db.events
        && queue.db.events[answer.value.event].tenant == request.tenant
        && queue.db.events[answer.value.event].key == request.key
      ensures answer.None? && request.key.Some? ==> forall f :: f in queue.db.events ==>
        !(queue.db.events[f].tenant == request.tenant && queue.db.events[f].key == request.key)
    {
      var check := usage.AssertWithinLimit(request.tenant, monthly, 1);
      if !check.WithinLimit? { return Some(Refused(check)); }
      if !(request.topic in topics && topics[request.topic] == request.tenant) { return Some(NoSuchTopic); }
      if request.payloadBytes > PayloadLimit(request.tenant) { return Some(PayloadTooLarge); }

      if request.key.Some? {
        var existing := FindByIdempotencyKey(request.key.value, request.tenant);
        if existing.Some? { return Some(Existing(existing.value)); }
      }
      answer := None;
    }

    /** The checksum, the insert and the fan-out to the active consumers of the page. */
    method StoreProduced(request: ProduceRequest, page: seq<Id>, e: Id, ids: Id -> Id, now: Time)
      requires IsPage(queue.db.Snapshot(), request.topic, request.tenant, PRODUCE_PAGE, page)
      requires DrawsNew(queue.db.Snapshot(), page, ids) && e !in queue.db.events
      requires request.key.Some? ==> forall f :: f in queue.db.events ==>
        !(queue.db.events[f].tenant == request.tenant && queue.db.events[f].key == request.key)
      modifies queue.db
      ensures queue.db.now == old(queue.db.now)
      ensures var targets := ActiveOf(old(queue.db.Snapshot()), page);
        FannedOut(
          WithEvent(old(queue.db.Snapshot()), e, request.tenant, request.topic, request.payload,
            ApiChecksum(hash, request.payload), request.key),
          queue.db.Snapshot(), e, request.tenant, targets, |targets|, ids, now)
      ensures StoredFor(old(queue.db.Snapshot()), queue.db.Snapshot(), e,
        Event(request.tenant, request.topic, request.payload, hash(CanonicalJson(request.payload)), request.key,
              EventPending, None, None),
        (set c | c in page && old(queue.db.consumers)[c].active), ids, now)
      ensures KeysApart(old(queue.db.events)) ==> KeysApart(queue.db.events)
    {
      var checksum := ApiChecksum(hash, request.payload);
      var event :=
        Event(request.tenant, request.topic, request.payload, checksum, request.key, EventPending, None, None);
      var active := ActiveOf(queue.db.Snapshot(), page);
      ActiveTargets(queue.db.Snapshot(), request.topic, request.tenant, page, ids);
      NewKeyStaysApart(queue.db.events, e, event);
      Store(queue, e, event, active, ids, now);
    }

    /** A call with nothing between its statements. `topics` gives each topic its tenant, `page`
        is what the consumer query returns, `e` and `ids` are the random identifiers. */
    method Produce(request: ProduceRequest, monthly: nat, topics: map<Id, Id>, page: seq<Id>, e: Id,
                   ids: Id -> Id, now: Time)
      returns (r: ProduceResult)
      requires IsPage(queue.db.Snapshot(), request.topic, request.tenant, PRODUCE_PAGE, page)
      requires DrawsNew(queue.db.Snapshot(), page, ids) && e !in queue.db.events
      modifies queue.db
      ensures queue.db.now == old(queue.db.now)
      ensures !r.Produced? ==> queue.db.Snapshot() == old(queue.db.Snapshot())
      ensures r.Refused? <==> !usage.AssertWithinLimit(request.tenant, monthly, 1).WithinLimit?
      ensures r.Refused? ==> r.check == usage.AssertWithinLimit(request.tenant, monthly, 1)
      ensures r.NoSuchTopic? <==> !r.Refused? && !(request.topic in topics && topics[request.topic] == request.tenant)
      ensures r.PayloadTooLarge? <==>
        && !r.Refused? && request.topic in topics && topics[request.topic] == request.tenant
        && request.payloadBytes > PayloadLimit(request.tenant)
      ensures r.Existing? <==>
        && !r.Refused? && request.topic in topics && topics[request.topic] == request.tenant
        && request.payloadBytes <= PayloadLimit(request.tenant)
        && exists f :: HasKey(old(queue.db.Snapshot()), f, request.tenant, request.key)
      ensures r.Existing? ==> HasKey(old(queue.db.Snapshot()), r.event, request.tenant, request.key)
      ensures r.Produced? ==>
        && r.event == e
        && var targets := ActiveOf(old(queue.db.Snapshot()), page);
           FannedOut(
             WithEvent(old(queue.db.Snapshot()), e, request.tenant, request.topic, request.payload,
               ApiChecksum(hash, request.payload), request.key),
             queue.db.Snapshot(), e, request.tenant, targets, |targets|, ids, now)
      ensures r.Existing? ==>
        && request.key.Some? && r.event in old(queue.db.events)
        && old(queue.db.events)[r.event].tenant == request.tenant && old(queue.db.events)[r.event].key == request.key
      ensures r.Produced? && request.key.Some? ==> forall f :: f in old(queue.db.events) ==>
        !(old(queue.db.events)[f].tenant == request.tenant && old(queue.db.events)[f].key == request.key)
      ensures r.Produced? ==> StoredFor(old(queue.db.Snapshot()), queue.db.Snapshot(), e,
        Event(request.tenant, request.topic, request.payload, hash(CanonicalJson(request.payload)), request.key,
              EventPending, None, None),
        (set c | c in page && old(queue.db.consumers)[c].active), ids, now)
      ensures KeysApart(old(queue.db.events)) ==> KeysApart(queue.db.events)
    {
      var answer := Screen(request, monthly, topics);
      if answer.Some? {
        assert answer.value.Existing? ==>
          HasKey(queue.db.Snapshot(), answer.value.event, request.tenant, request.key);
        return answer.value;
      }
      StoreProduced(request, page, e, ids, now);
      r := Produced(e);
    }
  }

  // ---------------------------------------------------------------- schedules

  class SchedulerService {
    const queue: PostgresQueueEngine
    const hash: Hash
    const consumerLimit: nat

    constructor (queue: PostgresQueueEngine, hash: Hash, consumerLimit: nat)
      ensures this.queue == queue && this.hash == hash && this.consumerLimit == consumerLimit
    {
      this.queue, this.hash, this.consumerLimit := queue, hash, consumerLimit;
    }

    /** No limit check, no key, the plain checksum, and paused consumers get a delivery too. */
    method Fire(tenant: Id, topic: Id, payload: Value, page: seq<Id>, e: Id, ids: Id -> Id, firedAt: Time)
      requires IsPage(queue.db.Snapshot(), topic, tenant, consumerLimit, page)
      requires DrawsNew(queue.db.Snapshot(), page, ids) && e !in queue.db.events
      modifies queue.db
      ensures queue.db.now == old(queue.db.now)
      ensures FannedOut(
        WithEvent(old(queue.db.Snapshot()), e, tenant, topic, payload, ScheduleChecksum(hash, payload), None),
        queue.db.Snapshot(), e, tenant, page, |page|, ids, firedAt)
      ensures StoredFor(old(queue.db.Snapshot()), queue.db.Snapshot(), e,
        Event(tenant, topic, payload, hash(Stringify(payload)), None, EventPending, None, None),
        (set c | c in page), ids, firedAt)
      ensures KeysApart(old(queue.db.events)) ==> KeysApart(queue.db.events)
    {
      var event := Event(tenant, topic, payload, ScheduleChecksum(hash, payload), None, EventPending, None, None);
      NewKeyStaysApart(queue.db.events, e, event);
      Store(queue, e, event, page, ids, firedAt);
    }
  }

  // ---------------------------------------------------------------- against the protocol

  /** Only events that exist have been fanned out. */
  lemma {:induction false} FannedOutEventsExist(c: Config, run: Run)
    requires Possible(c, run)
    ensures Final(c, run).fannedOut <= Final(c, run).t.events.Keys
  {
    if run.Do? {
      FannedOutEventsExist(c, run.prev);
      StepExtends(c, Final(c, run.prev), run.step);
    }
  }

  lemma FannedOutUnique(t: Tables, u: Tables, v: Tables, e: Id, tenant: Id, targets: seq<Id>, ids: Id -> Id, at: Time)
    requires FannedOut(t, u, e, tenant, targets, |targets|, ids, at)
    requires FannedOut(t, v, e, tenant, targets, |targets|, ids, at)
    ensures u == v
  {
    forall d ensures d in u.deliveries <==> d in v.deliveries {}
    forall d | d in u.deliveries ensures u.deliveries[d] == v.deliveries[d] {
      if d !in t.deliveries {
        var i :| 0 <= i < |targets| && d == ids(targets[i]);
      }
    }
    assert u.deliveries == v.deliveries;
  }

  lemma EnqueueNext(t: Tables, u: Tables, e: Id, tenant: Id, targets: seq<Id>, i: nat, ids: Id -> Id, at: Time)
    requires i < |targets| && Distinct(targets) && DrawsNew(t, targets, ids)
    requires FannedOut(t, u, e, tenant, targets, i, ids, at)
    ensures var row := NewDelivery(tenant, e, targets[i], 0, at);
      FannedOut(t, SetRow(u, ids(targets[i]), row), e, tenant, targets, i + 1, ids, at)
  {
    FreshTarget(t, u, e, tenant, targets, i, ids, at);
    assert targets[i] in targets;
  }

  /** The fan-out so far is a run of enqueue steps, and the remaining targets are still due. */
  ghost predicate Fanning(c: Config, run: Run, t: Tables, e: Id, tenant: Id, targets: seq<Id>, i: nat,
                          ids: Id -> Id, at: Time)
    requires i <= |targets|
  {
    && Possible(c, run)
    && FannedOut(t, Final(c, run).t, e, tenant, targets, i, ids, at)
    && forall j :: i <= j < |targets| ==> (e, targets[j]) in Final(c, run).fanout
  }

  lemma FanningAdvances(c: Config, run: Run, t: Tables, e: Id, tenant: Id, targets: seq<Id>, i: nat,
                        ids: Id -> Id, at: Time)
    requires i < |targets| && Distinct(targets) && DrawsNew(t, targets, ids)
    requires e in t.events && t.events[e].tenant == tenant && forall c :: c in targets ==> c in t.consumers
    requires Fanning(c, run, t, e, tenant, targets, i, ids, at)
    ensures var enqueue := EnqueueOriginal(e, targets[i], ids(targets[i]), at);
      Fanning(c, Do(run, enqueue), t, e, tenant, targets, i + 1, ids, at)
  {
    var s := Final(c, run);
    assert targets[i] in targets;
    FreshTarget(t, s.t, e, tenant, targets, i, ids, at);
    EnqueueNext(t, s.t, e, tenant, targets, i, ids, at);
    assert forall j :: i < j < |targets| ==> (e, targets[j]) != (e, targets[i]);
  }

  /** What `Produce` and `Fire` do to the tables is a run of the protocol: one insert, one read of
      the consumers, and one enqueue for each target. */
  lemma {:induction false} FanOutIsRun(c: Config, run: Run, e: Id, tenant: Id, topic: Id, payload: Value,
                                       checksum: Digest, key: Option<Id>,
                    targets: seq<Id>, limit: nat, ids: Id -> Id, at: Time, u: Tables) returns (later: Run)
    requires Possible(c, run) && e !in Final(c, run).t.events
    requires IsPage(Final(c, run).t, topic, tenant, limit, targets) && DrawsNew(Final(c, run).t, targets, ids)
    requires var t := WithEvent(Final(c, run).t, e, tenant, topic, payload, checksum, key);
      FannedOut(t, u, e, tenant, targets, |targets|, ids, at)
    ensures Possible(c, later) && Final(c, later).t == u
  {
    FannedOutEventsExist(c, run);
    var t := WithEvent(Final(c, run).t, e, tenant, topic, payload, checksum, key);
    var insert := Do(run, InsertEvent(e, tenant, topic, payload, checksum, key));
    assert Possible(c, insert) && Final(c, insert).t == t;
    later := Do(insert, ReadConsumers(e, Elements(targets)));
    assert Fanning(c, later, t, e, tenant, targets, 0, ids, at) by {
      forall j | 0 <= j < |targets| ensures (e, targets[j]) in Final(c, later).fanout {
        assert targets[j] in Elements(targets);
      }
    }
    for i := 0 to |targets|
      invariant Fanning(c, later, t, e, tenant, targets, i, ids, at)
    {
      FanningAdvances(c, later, t, e, tenant, targets, i, ids, at);
      later := Do(later, EnqueueOriginal(e, targets[i], ids(targets[i]), at));
    }
    FannedOutUnique(t, u, Final(c, later).t, e, tenant, targets, ids, at);
  }
}
