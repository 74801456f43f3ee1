/**
 * DelegatingOrchestrator: the single road from an algorithm to the broker.
 * Placing an order passes, in this order, the trading guard (refused when
 * read-only), the client order id (generated when blank) and its
 * idempotency check (refused when seen before), the algorithm's rate
 * limiter (a refusal trips the guard), and then the kill-switch broker;
 * what the broker accepts is recorded in the client-id map and the
 * ownership table.
 *
 * The clock the limiter and the market view share is read by the caller
 * and passed in as `now`; the wall-clock stamp of a generated id is passed
 * in as `stamp`, and the GUID that ends it is a fresh number.
 */
module Orchestration {
  import opened Common
  import opened Orders
  import opened MarketData
  import opened Guards
  import opened RateLimits
  import PaperBrokerSpec
  import PaperBrokerInvariants
  import opened PaperBrokerClass
  import opened KillSwitch
  import Trading

  const UnknownAlgorithm := "UNKNOWN"

  /** The algorithm a request is placed for: a missing id stands for "UNKNOWN". */
  function AlgorithmIdOf(req: PlaceOrderRequest): string
  {
    if req.algorithmId.Some? then req.algorithmId.value else UnknownAlgorithm
  }

  /** A generated client order id: "AUTO:", the wall-clock stamp, ":" and a fresh number standing for the GUID. */
  function AutoClientOrderId(stamp: string, n: nat): (id: string)
    ensures |id| > 5 && id[..5] == "AUTO:"
  {
    "AUTO:" + stamp + ":" + IdOf(n)
  }

  /** Different numbers give different generated ids under the same stamp. */
  lemma AutoIdsDiffer(stamp: string, n: nat, m: nat)
    requires n != m
    ensures AutoClientOrderId(stamp, n) != AutoClientOrderId(stamp, m)
  {
    var prefix := "AUTO:" + stamp + ":";
    assert AutoClientOrderId(stamp, n)[|prefix|..] == IdOf(n);
    assert AutoClientOrderId(stamp, m)[|prefix|..] == IdOf(m);
    IdNumberOf(n);
    IdNumberOf(m);
  }

  function ReadOnlyMessage(reason: Option<string>): string
  {
    "InvalidOperationException: ReadOnly: " + (if reason.Some? then reason.value else "enabled")
  }

  function DuplicateMessage(clientOrderId: string): string
  {
    "InvalidOperationException: Duplicate ClientOrderId: " + clientOrderId
  }

  function UnknownClientOrderIdMessage(clientOrderId: string): string
  {
    "InvalidOperationException: Unknown ClientOrderId: " + clientOrderId
  }

  /** The reason a rate-limit refusal trips the guard with. */
  function RateLimitReason(limiterName: string): string
  {
    "Rate limit exceeded (" + limiterName + ")"
  }

  const RateLimitMessage := "InvalidOperationException: Rate limit exceeded. Trading halted (ReadOnly)."


  /** What the checks before the broker read and change: the guard, the registered client ids, the limiters' windows and the generated-id count. */
  datatype Front = Front(guard: GuardState, seen: set<string>, limits: map<string, LimiterState>, autoIds: nat)

  /** What the broker call and the records change: the client-id map, the ownership table and the paper broker. */
  datatype Books = Books(ids: map<string, Option<string>>, owners: Ownership, broker: PaperBrokerSpec.Broker)

  /** Everything placement reads and changes, as a value; the kill switch is only read. */
  datatype Desk = Desk(front: Front, books: Books, killSwitch: bool)

  predicate LimitsInRange(limits: map<string, LimiterState>)
  {
    forall k :: k in limits ==> InRange(limits[k])
  }

  /** The guard has a reason exactly when tripped, and every window is in range. */
  predicate FrontValid(f: Front)
  {
    (f.guard.readOnly <==> f.guard.reason.Some?) && LimitsInRange(f.limits)
  }

  /** Every mapped client id was registered and maps to an order id. */
  predicate Recorded(ids: map<string, Option<string>>, seen: set<string>)
  {
    forall c :: c in ids ==> c in seen && ids[c].Some?
  }

  /** Every owned order is listed under its owner, and the client-id map holds registered ids only. */
  ghost predicate BooksValid(b: Books, seen: set<string>)
  {
    Consistent(b.owners) && Recorded(b.ids, seen)
  }

  /** (The broker's own invariants are kept apart.) */
  ghost predicate DeskValid(d: Desk)
  {
    FrontValid(d.front) && BooksValid(d.books, d.front.seen)
  }

  /** The client order id a request goes out with, the request as sent, and the next fresh number. */
  datatype Identified = Identified(clientOrderId: string, request: PlaceOrderRequest, autoIds: nat)

  function Identify(req: PlaceOrderRequest, stamp: string, autoIds: nat): (r: Identified)
    ensures IsNullOrBlank(req.clientOrderId) ==> r.clientOrderId == AutoClientOrderId(stamp, autoIds) && r.autoIds == autoIds + 1
    ensures !IsNullOrBlank(req.clientOrderId) ==> r.clientOrderId == req.clientOrderId.value && r.autoIds == autoIds
    ensures r.request == req.(clientOrderId := Some(r.clientOrderId))
  {
    if IsNullOrBlank(req.clientOrderId) then
      var cid := AutoClientOrderId(stamp, autoIds);
      Identified(cid, req.(clientOrderId := Some(cid)), autoIds + 1)
    else Identified(req.clientOrderId.value, req, autoIds)
  }

  /**
   * The factory's GetFor followed by TryConsume(1): the key's window is
   * used (a new one if the key has none), or creating the limiter throws.
   */
  function LimitStep(maxPerSecond: int, limits: map<string, LimiterState>, key: string, now: Ticks): (Outcome<bool>, map<string, LimiterState>)
    requires key in limits ==> InRange(limits[key])
  {
    if key !in limits && maxPerSecond <= 0 then (Threw("ArgumentOutOfRangeException: maxPerSecond"), limits)
    else
      var window := if key in limits then limits[key] else LimiterState(0, 0);
      var step := Consume(window, maxPerSecond, 1, now);
      (step.0, limits[key := step.1])
  }

  /** A limiter step keeps every window in range. */
  lemma LimitStepInRange(maxPerSecond: int, limits: map<string, LimiterState>, key: string, now: Ticks)
    requires LimitsInRange(limits)
    ensures LimitsInRange(LimitStep(maxPerSecond, limits, key, now).1)
  {
  }

  /** What the checks decide: a refusal with the front it leaves, or the request to send and the front so far. */
  datatype Admission = Refused(outcome: Outcome<OrderAck>, front: Front) | Admitted(front: Front, ident: Identified)

  /** The last check: the algorithm's limiter; a refusal trips the guard with a reason naming the limiter. */
  function LimitStage(maxPerSecond: int, f: Front, key: string, ident: Identified, now: Ticks): Admission
    requires LimitsInRange(f.limits)
  {
    var limit := LimitStep(maxPerSecond, f.limits, key, now);
    var f2 := f.(limits := limit.1);
    if limit.0.Threw? then Refused(Threw(limit.0.message), f2)
    else if !limit.0.value then
      Refused(Threw(RateLimitMessage), f2.(guard := ApplyGuard(f.guard, TripOp(RateLimitReason(LimiterName(key))))))
    else Admitted(f2, ident)
  }

  /**
   * The three checks, in order: the guard, the client order id (generated
   * if blank, then registered), the algorithm's limiter.
   */
  function Admit(maxPerSecond: int, f: Front, req: PlaceOrderRequest, now: Ticks, stamp: string): Admission
    requires LimitsInRange(f.limits)
  {
    if f.guard.readOnly then Refused(Threw(ReadOnlyMessage(f.guard.reason)), f)
    else
      var ident := Identify(req, stamp, f.autoIds);
      var cid := ident.clientOrderId;
      var f1 := f.(seen := f.seen + {cid}, autoIds := ident.autoIds);
      if cid in f.seen then Refused(Threw(DuplicateMessage(cid)), f1)
      else LimitStage(maxPerSecond, f1, LimiterKey(AlgorithmIdOf(req)), ident, now)
  }

  /** Recording what the broker accepted: the client id's order id, and the order's owner. */
  function Record(b: Books, clientOrderId: string, algorithmId: string, ack: OrderAck): Books
  {
    if ack.orderId.Some? then
      b.(ids := b.ids[clientOrderId := ack.orderId], owners := SetOwnerSpec(b.owners, ack.orderId, algorithmId).1)
    else b
  }

  /** Recording as the source writes it: unconditionally, so an ack without an order id makes SetOwner throw. */
  function RecordAsWritten(b: Books, clientOrderId: string, algorithmId: string, ack: OrderAck): (Outcome<()>, Books)
  {
    var b1 := b.(ids := b.ids[clientOrderId := ack.orderId]);
    var owned := SetOwnerSpec(b1.owners, ack.orderId, algorithmId);
    (owned.0, b1.(owners := owned.1))
  }

  /** The outcome of an admitted request, and the books after it. */
  datatype Dispatched = Dispatched(outcome: Outcome<OrderAck>, books: Books)

  /** An admitted request: the kill-switch broker, then (corrected) the records of an ack that carries an order id. */
  function Dispatch(c: PaperBrokerSpec.Config, killSwitch: bool, b: Books, ident: Identified, algorithmId: string, book: Option<OrderBookTop>, now: Ticks): Dispatched
  {
    var placed := GatedPlace(killSwitch, c, b.broker, ident.request, book, now);
    var b1 := b.(broker := placed.state);
    Dispatched(placed.outcome, if placed.outcome.Returned? then Record(b1, ident.clientOrderId, algorithmId, placed.outcome.value) else b1)
  }

  /** An admitted request as the source handles it: every returned ack is recorded. */
  function DispatchAsWritten(c: PaperBrokerSpec.Config, killSwitch: bool, b: Books, ident: Identified, algorithmId: string, book: Option<OrderBookTop>, now: Ticks): Dispatched
  {
    var placed := GatedPlace(killSwitch, c, b.broker, ident.request, book, now);
    var b1 := b.(broker := placed.state);
    if placed.outcome.Returned? then
      var rec := RecordAsWritten(b1, ident.clientOrderId, algorithmId, placed.outcome.value);
      Dispatched(if rec.0.Threw? then Threw(rec.0.message) else placed.outcome, rec.1)
    else Dispatched(placed.outcome, b1)
  }

  /** A placement's outcome, the desk after it, and whether the broker was called. */
  datatype PlaceResult = PlaceResult(outcome: Outcome<OrderAck>, desk: Desk, reachedBroker: bool)

  /** PlaceOrderAsync, with the recording step corrected to record only acks that carry an order id. */
  function PlaceOrderSpec(c: PaperBrokerSpec.Config, maxPerSecond: int, d: Desk, req: PlaceOrderRequest, book: Option<OrderBookTop>, now: Ticks, stamp: string): PlaceResult
    requires LimitsInRange(d.front.limits)
  {
    match Admit(maxPerSecond, d.front, req, now, stamp)
    case Refused(outcome, f) => PlaceResult(outcome, d.(front := f), false)
    case Admitted(f, ident) =>
      var x := Dispatch(c, d.killSwitch, d.books, ident, AlgorithmIdOf(req), book, now);
      PlaceResult(x.outcome, Desk(f, x.books, d.killSwitch), true)
  }

  /** PlaceOrderAsync as the source writes it. */
  function PlaceOrderAsWritten(c: PaperBrokerSpec.Config, maxPerSecond: int, d: Desk, req: PlaceOrderRequest, book: Option<OrderBookTop>, now: Ticks, stamp: string): PlaceResult
    requires LimitsInRange(d.front.limits)
  {
    match Admit(maxPerSecond, d.front, req, now, stamp)
    case Refused(outcome, f) => PlaceResult(outcome, d.(front := f), false)
    case Admitted(f, ident) =>
      var x := DispatchAsWritten(c, d.killSwitch, d.books, ident, AlgorithmIdOf(req), book, now);
      PlaceResult(x.outcome, Desk(f, x.books, d.killSwitch), true)
  }

  /** A read-only guard refuses the placement before anything else is touched. */
  lemma ReadOnlyRefuses(maxPerSecond: int, f: Front, req: PlaceOrderRequest, now: Ticks, stamp: string)
    requires LimitsInRange(f.limits) && f.guard.readOnly
    ensures Admit(maxPerSecond, f, req, now, stamp) == Refused(Threw(ReadOnlyMessage(f.guard.reason)), f)
  {
  }

  /**
   * With the guard clear, a client order id seen before is refused; the
   * id stays registered, and the guard and the limiters are left as they
   * were.
   */
  lemma DuplicateRefused(maxPerSecond: int, f: Front, req: PlaceOrderRequest, now: Ticks, stamp: string)
    requires LimitsInRange(f.limits) && !f.guard.readOnly
    requires Identify(req, stamp, f.autoIds).clientOrderId in f.seen
    ensures var a := Admit(maxPerSecond, f, req, now, stamp);
      && a.Refused?
      && a.outcome == Threw(DuplicateMessage(Identify(req, stamp, f.autoIds).clientOrderId))
      && a.front.seen == f.seen && a.front.limits == f.limits && a.front.guard == f.guard
  {
  }

  /**
   * With the guard clear and a new client order id, a refusal by the
   * algorithm's limiter trips the guard with a reason naming the limiter
   * and throws; the id stays registered.
   */
  lemma RateLimitTrips(maxPerSecond: int, f: Front, req: PlaceOrderRequest, now: Ticks, stamp: string)
    requires LimitsInRange(f.limits) && !f.guard.readOnly
    requires Identify(req, stamp, f.autoIds).clientOrderId !in f.seen
    requires LimitStep(maxPerSecond, f.limits, LimiterKey(AlgorithmIdOf(req)), now).0 == Returned(false)
    ensures var a := Admit(maxPerSecond, f, req, now, stamp);
      && a.Refused?
      && a.outcome == Threw(RateLimitMessage)
      && a.front.guard == GuardState(true, Some(RateLimitReason(LimiterName(LimiterKey(AlgorithmIdOf(req))))))
      && Identify(req, stamp, f.autoIds).clientOrderId in a.front.seen
  {
  }

  /**
   * A request is admitted exactly when all three checks pass, and then
   * goes out under its client order id; once the guard is clear the id is
   * registered, whether or not the request is admitted; the checks keep
   * the front valid.
   */
  lemma AdmitRules(maxPerSecond: int, f: Front, req: PlaceOrderRequest, now: Ticks, stamp: string)
    requires FrontValid(f)
    ensures var a := Admit(maxPerSecond, f, req, now, stamp);
      var ident := Identify(req, stamp, f.autoIds);
      && FrontValid(a.front)
      && (a.Admitted? <==>
            && !f.guard.readOnly
            && ident.clientOrderId !in f.seen
            && LimitStep(maxPerSecond, f.limits, LimiterKey(AlgorithmIdOf(req)), now).0 == Returned(true))
      && (a.Admitted? ==> a.ident == ident)
      && (!f.guard.readOnly ==> a.front.seen == f.seen + {ident.clientOrderId})
  {
    LimitStepInRange(maxPerSecond, f.limits, LimiterKey(AlgorithmIdOf(req)), now);
  }

  /**
   * The broker is called exactly when the checks admit the request; a
   * placement that does not reach it leaves the broker, the client-id map
   * and the ownership table as they were.
   */
  lemma BrokerOnlyAfterChecks(c: PaperBrokerSpec.Config, maxPerSecond: int, d: Desk, req: PlaceOrderRequest, book: Option<OrderBookTop>, now: Ticks, stamp: string)
    requires LimitsInRange(d.front.limits)
    ensures var p := PlaceOrderSpec(c, maxPerSecond, d, req, book, now, stamp);
      var a := Admit(maxPerSecond, d.front, req, now, stamp);
      && (p.reachedBroker <==> a.Admitted?)
      && (!p.reachedBroker ==> p == PlaceResult(a.outcome, d.(front := a.front), false))
  {
  }

  /**
   * When the broker accepts, the request went out under the client order id
   * (a generated "AUTO:" one if the request had none), and that id now
   * maps to the new order, which is owned by the request's algorithm.
   */
  lemma AcceptedIsRecorded(c: PaperBrokerSpec.Config, killSwitch: bool, b: Books, ident: Identified, algorithmId: string, book: Option<OrderBookTop>, now: Ticks)
    requires ident.request.clientOrderId == Some(ident.clientOrderId)
    requires var x := Dispatch(c, killSwitch, b, ident, algorithmId, book, now);
      x.outcome.Returned? && x.outcome.value.orderId.Some?
    ensures var x := Dispatch(c, killSwitch, b, ident, algorithmId, book, now);
      var oid := x.outcome.value.orderId.value;
      && !killSwitch
      && x.outcome.value.clientOrderId == Some(ident.clientOrderId)
      && x.books.ids == b.ids[ident.clientOrderId := Some(oid)]
      && x.books.owners.orderToAlgo[oid] == algorithmId
      && oid in OrdersOf(x.books.owners, algorithmId)
  {
  }

  /** Recording an ack keeps valid books valid, given its client id is registered. */
  lemma RecordKeepsBooksValid(b: Books, seen: set<string>, clientOrderId: string, algorithmId: string, ack: OrderAck)
    requires BooksValid(b, seen) && clientOrderId in seen
    ensures BooksValid(Record(b, clientOrderId, algorithmId, ack), seen)
  {
    if ack.orderId.Some? {
      OwnershipSteps(b.owners, ack.orderId.value, algorithmId);
    }
  }

  /** An admitted request keeps the books valid and the broker's invariants. */
  lemma DispatchKeepsBooksValid(c: PaperBrokerSpec.Config, killSwitch: bool, b: Books, seen: set<string>, ident: Identified, algorithmId: string, book: Option<OrderBookTop>, now: Ticks)
    requires BooksValid(b, seen) && ident.clientOrderId in seen && PaperBrokerInvariants.Inv(b.broker)
    ensures var x := Dispatch(c, killSwitch, b, ident, algorithmId, book, now);
      BooksValid(x.books, seen) && PaperBrokerInvariants.Inv(x.books.broker)
  {
    if !killSwitch {
      PaperBrokerInvariants.PlaceInv(c, b.broker, ident.request, book, now);
    }
    var placed := GatedPlace(killSwitch, c, b.broker, ident.request, book, now);
    if placed.outcome.Returned? {
      RecordKeepsBooksValid(b.(broker := placed.state), seen, ident.clientOrderId, algorithmId, placed.outcome.value);
    }
  }

  /** Placement keeps the desk valid and the broker's invariants. */
  lemma PlaceKeepsDeskValid(c: PaperBrokerSpec.Config, maxPerSecond: int, d: Desk, req: PlaceOrderRequest, book: Option<OrderBookTop>, now: Ticks, stamp: string)
    requires DeskValid(d) && PaperBrokerInvariants.Inv(d.books.broker)
    ensures var p := PlaceOrderSpec(c, maxPerSecond, d, req, book, now, stamp);
      DeskValid(p.desk) && PaperBrokerInvariants.Inv(p.desk.books.broker)
  {
    AdmitRules(maxPerSecond, d.front, req, now, stamp);
    var a := Admit(maxPerSecond, d.front, req, now, stamp);
    if a.Admitted? {
      DispatchKeepsBooksValid(c, d.killSwitch, d.books, a.front.seen, a.ident, AlgorithmIdOf(req), book, now);
    }
  }

  /**
   * A placement the paper broker rejects (here for a quantity that is not
   * positive) returns an ack without an order id. As written, recording it
   * maps the client id to null and then throws from SetOwner, so the caller
   * sees an exception instead of the rejection; corrected, the rejection is
   * returned and nothing is recorded.
   */
  lemma RejectedOrderThrows(c: PaperBrokerSpec.Config, b: Books, ident: Identified, algorithmId: string, book: Option<OrderBookTop>, now: Ticks)
    requires b.broker.started && ident.request.quantity <= 0.0 && ident.request.clientOrderId == Some(ident.clientOrderId)
    ensures var written := DispatchAsWritten(c, false, b, ident, algorithmId, book, now);
      var fixed := Dispatch(c, false, b, ident, algorithmId, book, now);
      && written.outcome == Threw("ArgumentNullException: key")
      && written.books.ids[ident.clientOrderId] == None
      && fixed.outcome == Returned(OrderAck(false, None, Some(ident.clientOrderId), Some("Quantity must be > 0.")))
      && fixed.books == b
  {
  }

  /** The broker's state after trying to cancel each of `orderIds` in turn, each failure ignored. */
  function CancelAttempts(c: PaperBrokerSpec.Config, b: PaperBrokerSpec.Broker, orderIds: seq<string>, now: Ticks): PaperBrokerSpec.Broker
  {
    if orderIds == [] then b
    else PaperBrokerSpec.CancelOrder(c, CancelAttempts(c, b, orderIds[..|orderIds| - 1], now), CancelOrderRequest(orderIds[|orderIds| - 1], None), now).state
  }

  /** Cancel attempts keep the broker's invariants. */
  lemma {:induction false} CancelAttemptsInv(c: PaperBrokerSpec.Config, b: PaperBrokerSpec.Broker, orderIds: seq<string>, now: Ticks)
    requires PaperBrokerInvariants.Inv(b)
    ensures PaperBrokerInvariants.Inv(CancelAttempts(c, b, orderIds, now))
  {
    if orderIds != [] {
      var n := |orderIds| - 1;
      CancelAttemptsInv(c, b, orderIds[..n], now);
      PaperBrokerInvariants.CancelOrderInv(c, CancelAttempts(c, b, orderIds[..n], now), CancelOrderRequest(orderIds[n], None), now);
    }
  }

  /** A valid factory's windows are all in range. */
  lemma WindowsInRange(factory: PerAlgorithmRateLimiterFactory)
    requires factory.Valid()
    ensures LimitsInRange(factory.windows)
  {
  }

  class DelegatingOrchestrator {
    const broker: KillSwitchBroker
    const guard: TradingGuard
    const factory: PerAlgorithmRateLimiterFactory
    const idempotency: InMemoryIdempotencyStore
    const idMap: InMemoryOrderIdMap
    const ownership: InMemoryOrderOwnershipStore
    /** How many client order ids have been generated. */
    var autoIds: nat

    ghost function FrontState(): Front
      reads this, guard, idempotency, factory
    {
      Front(guard.State(), idempotency.seen, factory.windows, autoIds)
    }

    ghost function BooksState(): Books
      reads idMap, ownership, broker.inner
    {
      Books(idMap.entries, ownership.State(), broker.inner.State())
    }

    ghost function Snap(): Desk
      reads this, guard, idempotency, factory, idMap, ownership, broker.inner, broker.state
    {
      Desk(FrontState(), BooksState(), broker.state.KillSwitchEnabled())
    }

    ghost predicate Valid()
      reads this, guard, idempotency, factory, factory.limiters.Values, idMap, ownership, broker.inner
    {
      guard.Valid() && factory.Valid() && broker.inner.Valid() && Consistent(ownership.State()) && Recorded(idMap.entries, idempotency.seen)
    }

    constructor (broker: KillSwitchBroker, guard: TradingGuard, factory: PerAlgorithmRateLimiterFactory,
                 idempotency: InMemoryIdempotencyStore, idMap: InMemoryOrderIdMap, ownership: InMemoryOrderOwnershipStore)
      ensures this.broker == broker && this.guard == guard && this.factory == factory
      ensures this.idempotency == idempotency && this.idMap == idMap && this.ownership == ownership
      ensures autoIds == 0
    {
      this.broker := broker;
      this.guard := guard;
      this.factory := factory;
      this.idempotency := idempotency;
      this.idMap := idMap;
      this.ownership := ownership;
      autoIds := 0;
    }

    /** GetOrderAsync: the broker's. */
    method GetOrder(orderId: string) returns (r: Option<OrderState>)
      requires Valid()
      ensures r.None? <==> forall x :: x in broker.inner.orders ==> Fold(broker.inner.orders[x].orderId) != Fold(orderId)
      ensures r.Some? ==> r.value in broker.inner.orders.Values && Fold(r.value.orderId) == Fold(orderId)
    {
      r := broker.GetOrder(orderId);
    }

    /** One token from the limiter the factory keeps under `key`; the other windows are left as they were. */
    method ConsumeFrom(limiter: PerSecondFixedWindowRateLimiter, key: string, now: Ticks) returns (granted: Outcome<bool>)
      requires factory.Valid() && key in factory.limiters && factory.limiters[key] == limiter
      modifies limiter, factory
      ensures factory.Valid()
      ensures (granted, limiter.State()) == Consume(old(limiter.State()), factory.maxPerSecond, 1, now)
      ensures factory.windows == old(factory.windows)[key := limiter.State()]
    {
      granted := limiter.TryConsume(1, now);
      factory.windows := factory.windows[key := limiter.State()];
      forall k | k in factory.limiters && k != key
        ensures factory.limiters[k] != limiter
      {
      }
    }

    /** The algorithm's limiter, created on first use, then one token from it. */
    method ConsumeFor(algorithmId: string, now: Ticks) returns (granted: Outcome<bool>)
      requires factory.Valid()
      modifies factory, factory.limiters.Values
      ensures factory.Valid()
      ensures LimitsInRange(old(factory.windows)) && (granted, factory.windows) == LimitStep(factory.maxPerSecond, old(factory.windows), LimiterKey(algorithmId), now)
    {
      var key := LimiterKey(algorithmId);
      ghost var before := factory.windows;
      WindowsInRange(factory);
      var found := factory.GetFor(algorithmId);
      if found.Threw? {
        return Threw(found.message);
      }
      var limiter := found.value;
      ghost var window := if key in before then before[key] else LimiterState(0, 0);
      assert limiter.State() == window && factory.windows == before[key := window];
      granted := ConsumeFrom(limiter, key, now);
      Overwrite(before, key, window, limiter.State());
    }

    /** The limiter check, as LimitStage says: a refusal trips the guard. */
    method LimitCheck(algorithmId: string, ident: Identified, now: Ticks, ghost f: Front) returns (admitted: bool, refusal: Outcome<OrderAck>)
      requires guard.Valid() && factory.Valid()
      requires f.guard == guard.State() && f.limits == factory.windows && LimitsInRange(f.limits)
      modifies guard, factory, factory.limiters.Values
      ensures guard.Valid() && factory.Valid()
      ensures var a := LimitStage(factory.maxPerSecond, f, LimiterKey(algorithmId), ident, now);
        && (admitted <==> a.Admitted?)
        && (a.Refused? ==> refusal == a.outcome)
        && a.front == f.(guard := guard.State(), limits := factory.windows)
    {
      var granted := ConsumeFor(algorithmId, now);
      if granted.Threw? {
        return false, Threw(granted.message);
      }
      if !granted.value {
        guard.Trip(RateLimitReason(LimiterName(LimiterKey(algorithmId))));
        return false, Threw(RateLimitMessage);
      }
      admitted, refusal := true, Returned(OrderAck(true, None, None, None));
    }

    /** The client order id the request goes out under, registered with the idempotency store. */
    method RegisterClientId(request: PlaceOrderRequest, stamp: string) returns (ident: Identified, isNew: bool)
      modifies this, idempotency
      ensures ident == Identify(request, stamp, old(autoIds)) && autoIds == ident.autoIds
      ensures (isNew, idempotency.seen) == Register(old(idempotency.seen), ident.clientOrderId)
    {
      ident := Identify(request, stamp, autoIds);
      autoIds := ident.autoIds;
      isNew := idempotency.TryRegister(ident.clientOrderId);
    }

    /** The checks before the broker, as Admit says: `admitted`, or the refusal to throw. */
    method CheckAdmission(request: PlaceOrderRequest, now: Ticks, stamp: string) returns (admitted: bool, refusal: Outcome<OrderAck>, ident: Identified)
      requires Valid()
      modifies this, guard, idempotency, factory, factory.limiters.Values
      ensures Valid() && BooksState() == old(BooksState())
      ensures admitted ==> ident.clientOrderId in idempotency.seen
      ensures LimitsInRange(old(FrontState()).limits)
      ensures var a := Admit(factory.maxPerSecond, old(FrontState()), request, now, stamp);
        && (admitted <==> a.Admitted?)
        && (a.Refused? ==> refusal == a.outcome)
        && (a.Admitted? ==> ident == a.ident)
        && FrontState() == a.front
    {
      ghost var f := FrontState();
      WindowsInRange(factory);
      if guard.readOnly {
        return false, Threw(ReadOnlyMessage(guard.reason)), Identified("", request, autoIds);
      }
      var isNew;
      ident, isNew := RegisterClientId(request, stamp);
      assert FrontState() == f.(seen := f.seen + {ident.clientOrderId}, autoIds := ident.autoIds);
      if !isNew {
        return false, Threw(DuplicateMessage(ident.clientOrderId)), ident;
      }
      admitted, refusal := LimitCheck(AlgorithmIdOf(request), ident, now, f.(seen := f.seen + {ident.clientOrderId}, autoIds := ident.autoIds));
    }

    /** Records an accepted ack: the client id's order id and the order's owner. */
    method RecordAck(clientOrderId: string, algorithmId: string, ack: OrderAck)
      modifies idMap, ownership
      ensures BooksState() == Record(old(BooksState()), clientOrderId, algorithmId, ack)
    {
      if ack.orderId.Some? {
        idMap.Set(clientOrderId, ack.orderId);
        var owned := ownership.SetOwner(ack.orderId, algorithmId);
      }
    }

    /** An admitted request, as Dispatch says: the kill-switch broker, then the records. */
    method SendAndRecord(ident: Identified, algorithmId: string, book: Option<OrderBookTop>, now: Ticks) returns (r: Outcome<OrderAck>)
      requires broker.inner.Valid() && BooksValid(BooksState(), idempotency.seen) && ident.clientOrderId in idempotency.seen
      modifies broker.inner, idMap, ownership
      ensures broker.inner.Valid() && BooksValid(BooksState(), idempotency.seen)
      ensures var x := Dispatch(broker.inner.config, broker.state.KillSwitchEnabled(), old(BooksState()), ident, algorithmId, book, now);
        r == x.outcome && BooksState() == x.books
    {
      ghost var b := BooksState();
      r := broker.PlaceOrder(ident.request, book, now);
      ghost var b1 := b.(broker := broker.inner.State());
      assert BooksState() == b1;
      if r.Returned? {
        RecordKeepsBooksValid(b1, idempotency.seen, ident.clientOrderId, algorithmId, r.value);
        RecordAck(ident.clientOrderId, algorithmId, r.value);
      }
    }

    /**
     * PlaceOrderAsync: the checks as Admit says, and for an admitted request
     * the kill-switch broker and the records as Dispatch says; together,
     * PlaceOrderSpec of the desk.
     */
    method PlaceOrder(request: PlaceOrderRequest, book: Option<OrderBookTop>, now: Ticks, stamp: string) returns (r: Outcome<OrderAck>)
      requires Valid()
      modifies this, guard, idempotency, factory, factory.limiters.Values, idMap, ownership, broker.inner
      ensures Valid()
      ensures LimitsInRange(old(FrontState()).limits)
      ensures var a := Admit(factory.maxPerSecond, old(FrontState()), request, now, stamp);
        && FrontState() == a.front
        && (a.Refused? ==> r == a.outcome && BooksState() == old(BooksState()))
        && (a.Admitted? ==>
              var x := Dispatch(broker.inner.config, broker.state.KillSwitchEnabled(), old(BooksState()), a.ident, AlgorithmIdOf(request), book, now);
              r == x.outcome && BooksState() == x.books)
    {
      var admitted, refusal, ident := CheckAdmission(request, now, stamp);
      if !admitted {
        return refusal;
      }
      r := SendAndRecord(ident, AlgorithmIdOf(request), book, now);
    }

    /** CancelByClientOrderIdAsync: cancels the order the client id maps to, or throws for an unknown id. */
    method CancelByClientOrderId(clientOrderId: string, now: Ticks) returns (r: Outcome<()>)
      requires Valid()
      modifies broker.inner
      ensures Valid()
      ensures clientOrderId !in old(idMap.entries) ==>
        r == Threw(UnknownClientOrderIdMessage(clientOrderId)) && broker.inner.State() == old(broker.inner.State())
      ensures clientOrderId in old(idMap.entries) ==>
        var p := PaperBrokerSpec.CancelOrder(broker.inner.config, old(broker.inner.State()),
          CancelOrderRequest(idMap.entries[clientOrderId].value, None), now);
        broker.inner.State() == p.state && (r.Threw? <==> p.outcome.Threw?)
    {
      var found, orderId := idMap.TryGetOrderId(clientOrderId);
      if !found {
        return Threw(UnknownClientOrderIdMessage(clientOrderId));
      }
      var ack := broker.CancelOrder(CancelOrderRequest(orderId.value, None), now);
      r := if ack.Threw? then Threw(ack.message) else Returned(());
    }

    /** CancelAsync: the broker's cancel of the order id. */
    method Cancel(orderId: string, now: Ticks) returns (r: Outcome<()>)
      requires Valid()
      modifies broker.inner
      ensures Valid()
      ensures var p := PaperBrokerSpec.CancelOrder(broker.inner.config, old(broker.inner.State()), CancelOrderRequest(orderId, None), now);
        broker.inner.State() == p.state && (r.Threw? <==> p.outcome.Threw?)
    {
      var ack := broker.CancelOrder(CancelOrderRequest(orderId, None), now);
      r := if ack.Threw? then Threw(ack.message) else Returned(());
    }

    /** CancelAllAsync: the broker's. */
    method CancelAll(now: Ticks) returns (r: Outcome<()>)
      requires Valid()
      modifies broker.inner
      ensures Valid()
      ensures (r, broker.inner.State()) == PaperBrokerSpec.CancelAll(broker.inner.config, old(broker.inner.State()), now)
    {
      r := broker.CancelAll(now);
    }

    /**
     * CancelAllByAlgorithmAsync: tries to cancel every order the algorithm
     * owns (a blank id stands for "UNKNOWN"), one after another, going on
     * past any that fails; `orderIds` is the order the ownership table
     * listed them in, each once.
     */
    method CancelAllByAlgorithm(algorithmId: string, now: Ticks) returns (ghost orderIds: seq<string>)
      requires Valid()
      modifies broker.inner
      ensures Valid()
      ensures forall o :: o in orderIds <==> o in OrdersOf(ownership.State(), LimiterKey(algorithmId))
      ensures forall i, j :: 0 <= i < j < |orderIds| ==> orderIds[i] != orderIds[j]
      ensures broker.inner.State() == CancelAttempts(broker.inner.config, old(broker.inner.State()), orderIds, now)
    {
      var algoId := if IsBlank(algorithmId) then UnknownAlgorithm else algorithmId;
      var ids := ownership.GetOrderIds(algoId);
      orderIds := ids;
      CancelEach(ids, now);
    }

    /** The loop of CancelAllByAlgorithmAsync: one cancel per id, in order, each outcome ignored. */
    method CancelEach(ids: seq<string>, now: Ticks)
      requires broker.inner.Valid()
      modifies broker.inner
      ensures broker.inner.Valid()
      ensures broker.inner.State() == CancelAttempts(broker.inner.config, old(broker.inner.State()), ids, now)
    {
      var i := 0;
      while i < |ids|
        invariant 0 <= i <= |ids|
        invariant broker.inner.Valid()
        invariant broker.inner.State() == CancelAttempts(broker.inner.config, old(broker.inner.State()), ids[..i], now)
      {
        var ignored := broker.CancelOrder(CancelOrderRequest(ids[i], None), now);
        assert ids[..i + 1][..i] == ids[..i];
        i := i + 1;
      }
      assert ids[..i] == ids;
    }
  }
}
