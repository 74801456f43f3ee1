/**
 * The small tables the order orchestrator consults and keeps: the trading
 * guard (a read-only flag with a reason), the set of client order ids
 * already seen, the client-order-id to order-id map, and the two-way
 * ownership table between orders and the algorithms that placed them.
 */
module Guards {
  import opened Common

  /** What the guard says: read-only or not, and why. */
  datatype GuardState = GuardState(readOnly: bool, reason: Option<string>)

  /** The operations the guard offers. */
  datatype GuardOp = TripOp(why: string) | ClearOp

  function ApplyGuard(g: GuardState, op: GuardOp): GuardState
  {
    match op
    case TripOp(why) => GuardState(true, Some(why))
    case ClearOp => GuardState(false, None)
  }

  /** The guard after the operations `ops`, in order, from a new guard. */
  function GuardAfter(ops: seq<GuardOp>): GuardState
  {
    if ops == [] then GuardState(false, None) else ApplyGuard(GuardAfter(ops[..|ops| - 1]), ops[|ops| - 1])
  }

  /**
   * The guard is read-only exactly when some trip has not been cleared
   * since, and its reason is that of the latest trip; otherwise it has no
   * reason.
   */
  lemma {:induction false} GuardAfterTrips(ops: seq<GuardOp>)
    ensures var g := GuardAfter(ops);
      && (g.readOnly <==> exists i :: 0 <= i < |ops| && ops[i].TripOp? && forall j :: i < j < |ops| ==> ops[j].TripOp?)
      && (g.readOnly ==> g.reason == Some(ops[|ops| - 1].why))
      && (!g.readOnly ==> g.reason == None)
  {
    if ops != [] {
      var n := |ops| - 1;
      GuardAfterTrips(ops[..n]);
      if !ops[n].TripOp? {
        forall i | 0 <= i < |ops| && ops[i].TripOp?
          ensures exists j :: i < j < |ops| && !ops[j].TripOp?
        {
          assert i < n && !ops[n].TripOp?;
        }
      }
    }
  }

  /** TradingGuard: a flag set by Trip and cleared by Clear, with the reason of the last trip. */
  class TradingGuard {
    var readOnly: bool
    var reason: Option<string>

    /** A tripped guard has a reason and a clear one has none. */
    ghost predicate Valid()
      reads this
    {
      readOnly <==> reason.Some?
    }

    ghost function State(): GuardState
      reads this
    {
      GuardState(readOnly, reason)
    }

    constructor ()
      ensures Valid() && State() == GuardAfter([])
    {
      readOnly := false;
      reason := None;
    }

    method Trip(why: string)
      requires Valid()
      modifies this
      ensures Valid() && State() == ApplyGuard(old(State()), TripOp(why))
    {
      readOnly := true;
      reason := Some(why);
    }

    method Clear()
      requires Valid()
      modifies this
      ensures Valid() && State() == ApplyGuard(old(State()), ClearOp)
    {
      readOnly := false;
      reason := None;
    }
  }

  /** TryRegister on the seen set: true the first time a key is offered. */
  function Register(seen: set<string>, key: string): (bool, set<string>)
  {
    (key !in seen, seen + {key})
  }

  /** The answers to registering each of `keys`, in order, starting from `seen`, and the seen set after them. */
  function RegisterAll(seen: set<string>, keys: seq<string>): (seq<bool>, set<string>)
  {
    if keys == [] then ([], seen)
    else
      var prior := RegisterAll(seen, keys[..|keys| - 1]);
      var step := Register(prior.1, keys[|keys| - 1]);
      (prior.0 + [step.0], step.1)
  }

  /**
   * Over any run of registrations exactly the first offer of each key not
   * seen before is answered true, and the seen set gains every key offered.
   */
  lemma {:induction false} RegisterAllFirstOnly(seen: set<string>, keys: seq<string>)
    ensures var r := RegisterAll(seen, keys);
      && |r.0| == |keys|
      && (forall i :: 0 <= i < |keys| ==> (r.0[i] <==> keys[i] !in seen && keys[i] !in keys[..i]))
      && r.1 == seen + set k | k in keys
  {
    if keys != [] {
      var n := |keys| - 1;
      var prefix := keys[..n];
      RegisterAllFirstOnly(seen, prefix);
      var r := RegisterAll(seen, keys);
      forall i | 0 <= i < n
        ensures r.0[i] <==> keys[i] !in seen && keys[i] !in keys[..i]
      {
        assert keys[..i] == prefix[..i];
      }
      assert keys[..n] == prefix;
      assert (set k | k in keys) == (set k | k in prefix) + {keys[n]} by {
        assert keys == prefix + [keys[n]];
      }
    }
  }

  /** InMemoryIdempotencyStore: the client order ids seen so far. */
  class InMemoryIdempotencyStore {
    var seen: set<string>

    constructor ()
      ensures seen == {}
    {
      seen := {};
    }

    method TryRegister(key: string) returns (isNew: bool)
      modifies this
      ensures (isNew, seen) == Register(old(seen), key)
    {
      isNew := key !in seen;
      seen := seen + {key};
    }
  }

  /** InMemoryOrderIdMap: client order id to order id; an order id may be null (None). */
  class InMemoryOrderIdMap {
    var entries: map<string, Option<string>>

    constructor ()
      ensures entries == map[]
    {
      entries := map[];
    }

    /** Set: the entry of `clientOrderId` is overwritten. */
    method Set(clientOrderId: string, orderId: Option<string>)
      modifies this
      ensures entries == old(entries)[clientOrderId := orderId]
    {
      entries := entries[clientOrderId := orderId];
    }

    /** TryGetOrderId: whether the key is mapped, and to what (null when it is not). */
    method TryGetOrderId(clientOrderId: string) returns (found: bool, orderId: Option<string>)
      ensures found <==> clientOrderId in entries
      ensures orderId == if found then entries[clientOrderId] else None
    {
      found := clientOrderId in entries;
      orderId := if found then entries[clientOrderId] else None;
    }
  }

  /** The ownership table: each order's algorithm, and each algorithm's set of orders. */
  datatype Ownership = Ownership(orderToAlgo: map<string, string>, algoToOrders: map<string, set<string>>)

  function OrdersOf(w: Ownership, algorithmId: string): set<string>
  {
    if algorithmId in w.algoToOrders then w.algoToOrders[algorithmId] else {}
  }

  /** SetOwner on the table; a null order id is a null dictionary key, which throws and changes nothing. */
  function SetOwnerSpec(w: Ownership, orderId: Option<string>, algorithmId: string): (Outcome<()>, Ownership)
  {
    if orderId.None? then (Threw("ArgumentNullException: key"), w)
    else
      var o := orderId.value;
      (Returned(()), Ownership(w.orderToAlgo[o := algorithmId], w.algoToOrders[algorithmId := OrdersOf(w, algorithmId) + {o}]))
  }

  /** Remove on the table: the order loses its owner and leaves the named algorithm's set, if that set exists. */
  function RemoveSpec(w: Ownership, orderId: string, algorithmId: string): Ownership
  {
    Ownership(
      w.orderToAlgo - {orderId},
      if algorithmId in w.algoToOrders then w.algoToOrders[algorithmId := w.algoToOrders[algorithmId] - {orderId}] else w.algoToOrders)
  }

  /** Every owned order is listed under its owner. */
  ghost predicate Consistent(w: Ownership)
  {
    forall o :: o in w.orderToAlgo ==> o in OrdersOf(w, w.orderToAlgo[o])
  }

  /** No order other than `orderId` gains, loses or changes its owner. */
  ghost predicate OthersKept(w: Ownership, w2: Ownership, orderId: string)
  {
    forall o :: o != orderId ==>
      (o in w2.orderToAlgo <==> o in w.orderToAlgo) && (o in w.orderToAlgo ==> w2.orderToAlgo[o] == w.orderToAlgo[o])
  }

  /**
   * SetOwner and Remove keep every owned order listed under its owner;
   * after SetOwner the order's owner is the new algorithm and the order is
   * in its set; after Remove the order has no owner and is not in the named
   * algorithm's set; no other order's owner changes.
   */
  lemma OwnershipSteps(w: Ownership, orderId: string, algorithmId: string)
    requires Consistent(w)
    ensures var w2 := SetOwnerSpec(w, Some(orderId), algorithmId).1;
      && Consistent(w2)
      && w2.orderToAlgo[orderId] == algorithmId && orderId in OrdersOf(w2, algorithmId)
      && OthersKept(w, w2, orderId)
    ensures var w3 := RemoveSpec(w, orderId, algorithmId);
      && Consistent(w3)
      && orderId !in w3.orderToAlgo && orderId !in OrdersOf(w3, algorithmId)
      && OthersKept(w, w3, orderId)
  {
    var w2 := SetOwnerSpec(w, Some(orderId), algorithmId).1;
    forall o | o in w2.orderToAlgo ensures o in OrdersOf(w2, w2.orderToAlgo[o]) {
      if o != orderId {
        assert o in OrdersOf(w, w.orderToAlgo[o]);
      }
    }
    var w3 := RemoveSpec(w, orderId, algorithmId);
    forall o | o in w3.orderToAlgo ensures o in OrdersOf(w3, w3.orderToAlgo[o]) {
      assert o in OrdersOf(w, w.orderToAlgo[o]);
    }
  }

  /**
   * Re-owning an order does not take it out of its former algorithm's set:
   * on any table, an order given to `a` and then to another algorithm `b`
   * is owned by `b` and listed under both.
   */
  lemma ReownKeepsStaleEntry(w: Ownership, o: string, a: string, b: string)
    requires a != b
    ensures var w2 := SetOwnerSpec(SetOwnerSpec(w, Some(o), a).1, Some(o), b).1;
      && w2.orderToAlgo[o] == b && o in OrdersOf(w2, a) && o in OrdersOf(w2, b)
  {
  }

  /** InMemoryOrderOwnershipStore: the two dictionaries, updated in place. */
  class InMemoryOrderOwnershipStore {
    var orderToAlgo: map<string, string>
    var algoToOrders: map<string, set<string>>

    ghost function State(): Ownership
      reads this
    {
      Ownership(orderToAlgo, algoToOrders)
    }

    constructor ()
      ensures State() == Ownership(map[], map[])
    {
      orderToAlgo := map[];
      algoToOrders := map[];
    }

    method SetOwner(orderId: Option<string>, algorithmId: string) returns (r: Outcome<()>)
      modifies this
      ensures (r, State()) == SetOwnerSpec(old(State()), orderId, algorithmId)
    {
      if orderId.None? {
        return Threw("ArgumentNullException: key");
      }
      var o := orderId.value;
      orderToAlgo := orderToAlgo[o := algorithmId];
      var set_ := if algorithmId in algoToOrders then algoToOrders[algorithmId] else {};
      algoToOrders := algoToOrders[algorithmId := set_ + {o}];
      r := Returned(());
    }

    method TryGetOwner(orderId: string) returns (found: bool, algorithmId: Option<string>)
      ensures found <==> orderId in orderToAlgo
      ensures algorithmId == if found then Some(orderToAlgo[orderId]) else None
    {
      found := orderId in orderToAlgo;
      algorithmId := if found then Some(orderToAlgo[orderId]) else None;
    }

    /** GetOrderIds: a copy of the algorithm's set, each order once; empty for an unknown algorithm. */
    method GetOrderIds(algorithmId: string) returns (ids: seq<string>)
      ensures forall o :: o in ids <==> o in OrdersOf(State(), algorithmId)
      ensures forall i, j :: 0 <= i < j < |ids| ==> ids[i] != ids[j]
    {
      if algorithmId in algoToOrders {
        ids := Enumerate(algoToOrders[algorithmId]);
      } else {
        ids := [];
      }
    }

    method Remove(orderId: string, algorithmId: string)
      modifies this
      ensures State() == RemoveSpec(old(State()), orderId, algorithmId)
    {
      orderToAlgo := orderToAlgo - {orderId};
      if algorithmId in algoToOrders {
        algoToOrders := algoToOrders[algorithmId := algoToOrders[algorithmId] - {orderId}];
      }
    }
  }
}
