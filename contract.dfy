/**
 * The ChowFastOrder contract as an object: one field per storage slot, the
 * payment token's balances and the event log, and one method per entry point
 * that makes the Rust code's checks in the Rust code's order. Writes are
 * committed once every check has passed; the host's rollback of a panicking
 * invocation makes this equivalent to the Rust order of writes.
 *
 * Each state-changing method is proved to do exactly what the matching
 * function of `Orders` says: on success the new fields are that function's
 * state and the result its value; on a panic the method writes nothing, which
 * is the host's rollback. The lemmas of `OrderLemmas` then apply to the object.
 */
module Contract {
  import opened Outcome
  import opened Orders
  import OrderLemmas

  /** `after` and `r` are what the host keeps after an invocation whose outcome is `spec`. */
  ghost predicate Committed(spec: Result<State, Error>, before: State, after: State, r: Result<(), Error>) {
    match spec
    case Ok(s') => r == Ok(()) && after == s'
    case Err(e) => r == Err(e) && after == before
  }

  class ChowFastOrder {
    /** `env.current_contract_address()`. */
    const contract: Address
    var owner: Option<Address>           // DataKey::Owner
    var tokenAddress: Option<Address>    // DataKey::TokenAddress
    var orderCounter: nat                // DataKey::OrderCounter, absent reads as 0
    var orders: map<nat, Order>          // DataKey::Order(id)
    var orderDetails: map<nat, OrderDetails>  // DataKey::OrderDetails(id)
    var ledger: map<Address, int>        // balances held by the payment token
    var events: seq<Event>               // published events, oldest first

    ghost function Snapshot(): State
      reads this
    {
      State(contract, owner, tokenAddress, orderCounter, orders, orderDetails, ledger, events)
    }

    ghost predicate Valid()
      reads this
    {
      Orders.Valid(Snapshot())
    }

    /** A deployed, not yet initialised contract beside a token with the given balances. */
    constructor (contract: Address, ledger: map<Address, int>)
      requires forall a :: a in ledger ==> ledger[a] >= 0
      ensures Valid()
      ensures Snapshot() == Deployed(contract, ledger)
    {
      this.contract := contract;
      owner := None;
      tokenAddress := None;
      orderCounter := 0;
      orders := map[];
      orderDetails := map[];
      this.ledger := ledger;
      events := [];
    }

    method Init(initialOwner: Address, token: Address, auth: set<Address>) returns (r: Result<(), Error>)
      requires Valid()
      modifies this
      ensures Valid()
      ensures Committed(Orders.Init(old(Snapshot()), initialOwner, token, auth), old(Snapshot()), Snapshot(), r)
    {
      if owner.Some? {
        return Err(AlreadyInitialized);
      }
      if initialOwner !in auth {
        return Err(Unauthorized);
      }
      owner := Some(initialOwner);
      orderCounter := 0;
      tokenAddress := Some(token);
      r := Ok(());
    }

    method CreateOrder(req: OrderRequest, auth: set<Address>, now: nat) returns (r: Result<nat, Error>)
      requires Valid()
      modifies this
      ensures Valid()
      ensures match Orders.CreateOrder(old(Snapshot()), req, auth, now)
              case Ok((s', id)) => r == Ok(id) && Snapshot() == s'
              case Err(e) => r == Err(e) && Snapshot() == old(Snapshot())
      ensures r.Ok? ==> r.value == orderCounter == old(orderCounter) + 1
    {
      if req.buyer !in auth {
        return Err(Unauthorized);
      }
      if |req.productIds| == 0 {
        return Err(NoItems);
      }
      if |req.productIds| != |req.productNames|
         || |req.productIds| != |req.prices|
         || |req.productIds| != |req.quantities| {
        return Err(ArrayLengthMismatch);
      }
      if req.subtotal <= 0 {
        return Err(NonPositiveSubtotal);
      }
      if |req.deliveryInfo| == 0 {
        return Err(NoDeliveryInfo);
      }
      var total := req.subtotal + TRANSACTION_FEE;
      if total > I128_MAX {
        return Err(ArithmeticOverflow);
      }
      if tokenAddress.None? {
        return Err(NotInitialized);
      }
      if !CanTransfer(ledger, req.buyer, total) {
        return Err(InsufficientBalance);
      }
      var paid := Move(ledger, req.buyer, contract, total);
      var counter := orderCounter;
      if counter >= U64_MAX {
        // the transfer above is rolled back with the rest of the invocation
        return Err(ArithmeticOverflow);
      }
      counter := counter + 1;
      ledger := paid;
      orderCounter := counter;
      var id := counter;
      orders := orders[id := Order(req.buyer, total, now, Paid)];
      orderDetails := orderDetails[id := DetailsOf(req)];
      events := events + [OrderNew(id, req.buyer, total, now)];
      r := Ok(id);
      OrderLemmas.CreateOrderPreservesValid(old(Snapshot()), req, auth, now);
    }

    method UpdateOrderStatus(id: nat, status: OrderStatus, auth: set<Address>) returns (r: Result<(), Error>)
      requires Valid()
      modifies this
      ensures Valid()
      ensures Committed(Orders.UpdateOrderStatus(old(Snapshot()), id, status, auth), old(Snapshot()), Snapshot(), r)
    {
      if owner.None? {
        return Err(NotInitialized);
      }
      if owner.value !in auth {
        return Err(Unauthorized);
      }
      var counter := orderCounter;
      if id == 0 || id > counter {
        return Err(OrderNotFound);
      }
      if id !in orders {
        return Err(MissingEntry);
      }
      var order := orders[id];
      if order.status == Cancelled {
        return Err(OrderCancelled);
      }
      order := order.(status := status);
      orders := orders[id := order];
      events := events + [StatusChanged(id, status)];
      r := Ok(());
      OrderLemmas.UpdateOrderStatusPreservesValid(old(Snapshot()), id, status, auth);
    }

    method CancelOrder(id: nat, auth: set<Address>, now: nat) returns (r: Result<(), Error>)
      requires Valid()
      modifies this
      ensures Valid()
      ensures Committed(Orders.CancelOrder(old(Snapshot()), id, auth, now), old(Snapshot()), Snapshot(), r)
    {
      var counter := orderCounter;
      if id == 0 || id > counter {
        return Err(OrderNotFound);
      }
      if id !in orders {
        return Err(MissingEntry);
      }
      var order := orders[id];
      if order.buyer !in auth {
        return Err(Unauthorized);
      }
      if order.status != Paid {
        return Err(NotPaid);
      }
      var elapsed := SaturatingSub(now, order.timestamp);
      if elapsed > FIVE_MINUTES {
        return Err(CancellationExpired);
      }
      if tokenAddress.None? {
        return Err(NotInitialized);
      }
      if !CanTransfer(ledger, contract, order.total) {
        return Err(InsufficientBalance);
      }
      order := order.(status := Cancelled);
      orders := orders[id := order];
      ledger := Move(ledger, contract, order.buyer, order.total);
      events := events + [OrderCancel(id, order.buyer)];
      r := Ok(());
      OrderLemmas.CancelOrderPreservesValid(old(Snapshot()), id, auth, now);
    }

    method Withdraw(auth: set<Address>) returns (r: Result<(), Error>)
      requires Valid()
      modifies this
      ensures Valid()
      ensures Committed(Orders.Withdraw(old(Snapshot()), auth), old(Snapshot()), Snapshot(), r)
    {
      if owner.None? {
        return Err(NotInitialized);
      }
      var to := owner.value;
      if to !in auth {
        return Err(Unauthorized);
      }
      if tokenAddress.None? {
        return Err(NotInitialized);
      }
      var balance := BalanceOf(ledger, contract);
      if balance <= 0 {
        return Err(NoFunds);
      }
      ledger := Move(ledger, contract, to, balance);
      events := events + [Withdrawn(to, balance)];
      r := Ok(());
      OrderLemmas.WithdrawPreservesValid(old(Snapshot()), auth);
    }

    method TransferOwnership(newOwner: Address, auth: set<Address>) returns (r: Result<(), Error>)
      requires Valid()
      modifies this
      ensures Valid()
      ensures Committed(Orders.TransferOwnership(old(Snapshot()), newOwner, auth), old(Snapshot()), Snapshot(), r)
    {
      if owner.None? {
        return Err(NotInitialized);
      }
      if owner.value !in auth || newOwner !in auth {
        return Err(Unauthorized);
      }
      owner := Some(newOwner);
      r := Ok(());
    }

    // ------------------------------------------------------------ getters

    /** `get_owner`: panics before `init`. */
    method GetOwner() returns (r: Result<Address, Error>)
      requires Valid()
      ensures r.Ok? <==> owner.Some?
      ensures r.Ok? ==> owner == Some(r.value)
      ensures r.Ok? <==> tokenAddress.Some?
    {
      if owner.None? {
        return Err(NotInitialized);
      }
      r := Ok(owner.value);
    }

    /** `get_total_orders`: every id from 1 to the returned count names a stored order with details. */
    method GetTotalOrders() returns (n: nat)
      requires Valid()
      ensures n == orderCounter
      ensures forall id :: 1 <= id <= n ==> id in orders && id in orderDetails
      ensures n + 1 !in orders
    {
      n := orderCounter;
    }

    /** `get_order`: found exactly for the ids handed out so far. */
    method GetOrder(id: nat) returns (r: Result<Order, Error>)
      requires Valid()
      ensures r.Ok? <==> 1 <= id <= orderCounter
      ensures r.Ok? ==> id in orders && r.value == orders[id] && r.value.total > TRANSACTION_FEE
    {
      if id !in orders {
        return Err(MissingEntry);
      }
      r := Ok(orders[id]);
    }

    /** `get_order_details`: found exactly for the ids handed out so far, and never empty. */
    method GetOrderDetails(id: nat) returns (r: Result<OrderDetails, Error>)
      requires Valid()
      ensures r.Ok? <==> 1 <= id <= orderCounter
      ensures r.Ok? ==> id in orderDetails && r.value == orderDetails[id]
      ensures r.Ok? ==> |r.value.productIds| > 0 && |r.value.deliveryInfo| > 0
    {
      if id !in orderDetails {
        return Err(MissingEntry);
      }
      assert id in orders;
      r := Ok(orderDetails[id]);
    }

    /** `get_token_address`: set exactly when the contract has an owner. */
    method GetTokenAddress() returns (r: Result<Address, Error>)
      requires Valid()
      ensures r.Ok? <==> tokenAddress.Some?
      ensures r.Ok? ==> tokenAddress == Some(r.value)
      ensures r.Ok? <==> owner.Some?
    {
      if tokenAddress.None? {
        return Err(NotInitialized);
      }
      r := Ok(tokenAddress.value);
    }
  }

  /**
   * A client: after `init` and one order, the buyer can cancel within the
   * window and is refunded, and the order can then never be updated.
   */
  method CancelScenario(buyerKey: Address, ownerKey: Address, req: OrderRequest, placedAt: nat)
    requires buyerKey != "contract" && ownerKey != "contract" && buyerKey != ownerKey
    requires req.buyer == buyerKey
    requires Validate(req).None? && req.subtotal <= 1_000
  {
    var c := new ChowFastOrder("contract", map[buyerKey := req.subtotal + TRANSACTION_FEE]);
    var ok := c.Init(ownerKey, "token", {ownerKey});
    assert ok.Ok?;
    var created := c.CreateOrder(req, {buyerKey}, placedAt);
    assert created == Ok(1);
    assert BalanceOf(c.ledger, buyerKey) == 0;
    var cancelled := c.CancelOrder(1, {buyerKey}, placedAt + FIVE_MINUTES);
    assert cancelled.Ok?;
    assert BalanceOf(c.ledger, buyerKey) == req.subtotal + TRANSACTION_FEE;
    var again := c.UpdateOrderStatus(1, Paid, {ownerKey});
    assert again == Err(OrderCancelled);
  }
}
