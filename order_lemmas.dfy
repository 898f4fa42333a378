/**
 * What the order contract promises, proved about the state machine `Orders`:
 * the rules of each entry point, the invariant every invocation keeps, and
 * facts about whole sequences of invocations.
 */
module OrderLemmas {
  import opened Outcome
  import opened Orders

  // ---------------------------------------------------------------- status codes

  /** The u32 codes of `OrderStatus` decode back to the status they encode, and only codes 0..4 decode. */
  lemma StatusCodeRoundTrip(st: OrderStatus, code: nat)
    ensures StatusCode(st) <= 4 && StatusOfCode(StatusCode(st)) == Some(st)
    ensures StatusOfCode(code).Some? <==> code <= 4
    ensures StatusOfCode(code).Some? ==> StatusCode(StatusOfCode(code).value) == code
  {
  }

  // ---------------------------------------------------------------- init

  /** `init` succeeds exactly when no owner is stored and the owner signed; it then stores owner, token and counter 0. */
  lemma InitOnlyOnce(s: State, owner: Address, token: Address, auth: set<Address>)
    ensures Init(s, owner, token, auth).Ok? <==> s.owner.None? && owner in auth
    ensures s.owner.Some? ==> Init(s, owner, token, auth) == Err(AlreadyInitialized)
    ensures Init(s, owner, token, auth).Ok? ==>
      var s' := Init(s, owner, token, auth).value;
      && s'.owner == Some(owner) && s'.token == Some(token) && s'.counter == 0
      && s'.orders == s.orders && s'.details == s.details
      && s'.ledger == s.ledger && s'.events == s.events
  {
  }

  // ---------------------------------------------------------------- create_order

  /**
   * Each of the four validation failures of `create_order` aborts it, and once
   * the buyer has signed, the first failing check, in source order, names the error.
   */
  lemma CreateOrderRejectsInvalid(s: State, req: OrderRequest, auth: set<Address>, now: nat)
    requires || |req.productIds| == 0
             || |req.productNames| != |req.productIds|
             || |req.prices| != |req.productIds|
             || |req.quantities| != |req.productIds|
             || req.subtotal <= 0
             || |req.deliveryInfo| == 0
    ensures CreateOrder(s, req, auth, now).Err?
    ensures req.buyer in auth && |req.productIds| == 0 ==>
      CreateOrder(s, req, auth, now) == Err(NoItems)
    ensures (&& req.buyer in auth && |req.productIds| > 0
             && (|req.productNames| != |req.productIds| || |req.prices| != |req.productIds|
                 || |req.quantities| != |req.productIds|)) ==>
      CreateOrder(s, req, auth, now) == Err(ArrayLengthMismatch)
    ensures (&& req.buyer in auth && |req.productIds| > 0
             && |req.productNames| == |req.productIds| && |req.prices| == |req.productIds|
             && |req.quantities| == |req.productIds| && req.subtotal <= 0) ==>
      CreateOrder(s, req, auth, now) == Err(NonPositiveSubtotal)
    ensures (&& req.buyer in auth && |req.productIds| > 0
             && |req.productNames| == |req.productIds| && |req.prices| == |req.productIds|
             && |req.quantities| == |req.productIds| && req.subtotal > 0) ==>
      CreateOrder(s, req, auth, now) == Err(NoDeliveryInfo)
  {
  }

  /** The exact conditions under which `create_order` goes through. */
  lemma CreateOrderSucceedsIff(s: State, req: OrderRequest, auth: set<Address>, now: nat)
    ensures CreateOrder(s, req, auth, now).Ok? <==>
      && req.buyer in auth
      && |req.productIds| > 0
      && |req.productNames| == |req.productIds|
      && |req.prices| == |req.productIds|
      && |req.quantities| == |req.productIds|
      && req.subtotal > 0
      && |req.deliveryInfo| > 0
      && req.subtotal + TRANSACTION_FEE <= I128_MAX
      && s.token.Some?
      && BalanceOf(s.ledger, req.buyer) >= req.subtotal + TRANSACTION_FEE
      && s.counter < U64_MAX
  {
  }

  /**
   * A successful `create_order` takes the next id, which was free, returns it
   * as the new counter, and stores a Paid order of subtotal plus fee stamped
   * with the ledger time, with its details; nothing else in storage changes.
   */
  lemma CreateOrderAllocatesNextId(s: State, req: OrderRequest, auth: set<Address>, now: nat)
    requires Valid(s)
    requires CreateOrder(s, req, auth, now).Ok?
    ensures var (s', id) := CreateOrder(s, req, auth, now).value;
      && id == s.counter + 1 && s'.counter == id
      && id !in s.orders && id !in s.details
      && s'.orders == s.orders[id := Order(req.buyer, req.subtotal + TRANSACTION_FEE, now, Paid)]
      && s'.details == s.details[id := OrderDetails(req.deliveryInfo, req.productIds, req.productNames, req.prices, req.quantities)]
      && s'.owner == s.owner && s'.token == s.token && s'.contract == s.contract
      && s'.events == s.events + [OrderNew(id, req.buyer, req.subtotal + TRANSACTION_FEE, now)]
  {
  }

  /** A successful `create_order` moves exactly subtotal plus fee from the buyer to the contract. */
  lemma CreateOrderMovesTokens(s: State, req: OrderRequest, auth: set<Address>, now: nat, other: Address)
    requires CreateOrder(s, req, auth, now).Ok?
    requires req.buyer != s.contract && other != req.buyer && other != s.contract
    ensures var s' := CreateOrder(s, req, auth, now).value.0;
      && BalanceOf(s'.ledger, req.buyer) == BalanceOf(s.ledger, req.buyer) - (req.subtotal + TRANSACTION_FEE)
      && BalanceOf(s'.ledger, s.contract) == BalanceOf(s.ledger, s.contract) + (req.subtotal + TRANSACTION_FEE)
      && BalanceOf(s'.ledger, other) == BalanceOf(s.ledger, other)
  {
  }

  // ---------------------------------------------------------------- update_order_status

  /**
   * `update_order_status` succeeds exactly for the signed owner on an existing
   * order that is not cancelled, and then replaces that order's status only.
   */
  lemma UpdateOrderStatusOnlySetsStatus(s: State, id: nat, status: OrderStatus, auth: set<Address>)
    requires Valid(s)
    ensures UpdateOrderStatus(s, id, status, auth).Ok? <==>
      && s.owner.Some? && s.owner.value in auth
      && 1 <= id <= s.counter
      && s.orders[id].status != Cancelled
    ensures (id == 0 || id > s.counter) ==> UpdateOrderStatus(s, id, status, auth).Err?
    ensures UpdateOrderStatus(s, id, status, auth).Ok? ==>
      var s' := UpdateOrderStatus(s, id, status, auth).value;
      && s'.orders == s.orders[id := s.orders[id].(status := status)]
      && s'.counter == s.counter && s'.details == s.details && s'.ledger == s.ledger
      && s'.owner == s.owner && s'.token == s.token
  {
  }

  /** Cancelled is absorbing: neither `update_order_status` nor `cancel_order` accepts a cancelled order. */
  lemma CancelledIsFinal(s: State, id: nat, status: OrderStatus, auth: set<Address>, now: nat)
    requires id in s.orders && s.orders[id].status == Cancelled
    ensures UpdateOrderStatus(s, id, status, auth).Err?
    ensures CancelOrder(s, id, auth, now).Err?
  {
  }

  // ---------------------------------------------------------------- cancel_order

  /** The window compares the saturating difference with 300: inclusive, and a clock behind the timestamp counts as 0. */
  lemma CancelWindowInclusive(now: nat, placedAt: nat)
    ensures WithinCancelWindow(now, placedAt) <==> now <= placedAt + FIVE_MINUTES
    ensures now <= placedAt ==> WithinCancelWindow(now, placedAt)
  {
  }

  /**
   * `cancel_order` succeeds exactly for the signed buyer of an existing Paid
   * order inside the window while the contract holds its total; it then marks
   * the order Cancelled and refunds exactly its total; no other balance moves.
   */
  lemma CancelOrderRefunds(s: State, id: nat, auth: set<Address>, now: nat, other: Address)
    requires Valid(s)
    ensures CancelOrder(s, id, auth, now).Ok? <==>
      && 1 <= id <= s.counter
      && s.orders[id].buyer in auth
      && s.orders[id].status == Paid
      && WithinCancelWindow(now, s.orders[id].timestamp)
      && s.token.Some?
      && BalanceOf(s.ledger, s.contract) >= s.orders[id].total
    ensures CancelOrder(s, id, auth, now).Ok? ==>
      var s' := CancelOrder(s, id, auth, now).value;
      var o := s.orders[id];
      && s'.orders == s.orders[id := o.(status := Cancelled)]
      && s'.counter == s.counter && s'.details == s.details
      && s'.owner == s.owner && s'.token == s.token
      && (o.buyer != s.contract ==>
            && BalanceOf(s'.ledger, o.buyer) == BalanceOf(s.ledger, o.buyer) + o.total
            && BalanceOf(s'.ledger, s.contract) == BalanceOf(s.ledger, s.contract) - o.total)
      && (other != s.contract && other != o.buyer ==>
            BalanceOf(s'.ledger, other) == BalanceOf(s.ledger, other))
  {
  }

  // ---------------------------------------------------------------- withdraw, transfer_ownership

  /**
   * `withdraw` refuses an empty contract; otherwise the owner receives the whole
   * balance, and storage and every other balance are untouched.
   */
  lemma WithdrawEmptiesContract(s: State, auth: set<Address>, other: Address)
    requires Valid(s)
    ensures BalanceOf(s.ledger, s.contract) <= 0 ==> Withdraw(s, auth).Err?
    ensures Withdraw(s, auth).Ok? <==>
      s.owner.Some? && s.owner.value in auth && BalanceOf(s.ledger, s.contract) > 0
    ensures Withdraw(s, auth).Ok? ==>
      var s' := Withdraw(s, auth).value;
      && s'.orders == s.orders && s'.details == s.details && s'.counter == s.counter
      && s'.owner == s.owner && s'.token == s.token
      && (other != s.contract && other != s.owner.value ==>
            BalanceOf(s'.ledger, other) == BalanceOf(s.ledger, other))
    ensures Withdraw(s, auth).Ok? && s.owner.value != s.contract ==>
      var s' := Withdraw(s, auth).value;
      && BalanceOf(s'.ledger, s.contract) == 0
      && BalanceOf(s'.ledger, s.owner.value) == BalanceOf(s.ledger, s.owner.value) + BalanceOf(s.ledger, s.contract)
  {
  }

  /** `transfer_ownership` needs both signatures and changes nothing but the owner. */
  lemma TransferOwnershipNeedsBoth(s: State, newOwner: Address, auth: set<Address>)
    ensures TransferOwnership(s, newOwner, auth).Ok? <==>
      s.owner.Some? && s.owner.value in auth && newOwner in auth
    ensures TransferOwnership(s, newOwner, auth).Ok? ==>
      TransferOwnership(s, newOwner, auth).value == s.(owner := Some(newOwner))
  {
  }

  /**
   * Right after a withdrawal to an owner other than the contract, the contract
   * holds nothing, so no order can be cancelled, even a Paid one inside its
   * window: the refund transfer fails.
   */
  lemma WithdrawBlocksRefund(s: State, ownerAuth: set<Address>, id: nat, auth: set<Address>, now: nat)
    requires Valid(s)
    requires Withdraw(s, ownerAuth).Ok? && s.owner.value != s.contract
    ensures CancelOrder(Withdraw(s, ownerAuth).value, id, auth, now).Err?
  {
    var s' := Withdraw(s, ownerAuth).value;
    assert BalanceOf(s'.ledger, s'.contract) == 0;
    if 1 <= id <= s'.counter {
      assert id in s.orders && id in s.details;
      assert WellFormed(s.orders[id], s.details[id]);
      assert !CanTransfer(s'.ledger, s'.contract, s'.orders[id].total);
    }
  }

  // ---------------------------------------------------------------- the invariant

  /** A permitted transfer leaves no balance negative. */
  lemma MoveKeepsBalancesNonNegative(ledger: map<Address, int>, from: Address, to: Address, amount: int)
    requires forall a :: a in ledger ==> ledger[a] >= 0
    requires CanTransfer(ledger, from, amount)
    ensures forall a :: a in Move(ledger, from, to, amount) ==> Move(ledger, from, to, amount)[a] >= 0
  {
  }

  lemma CreateOrderPreservesValid(s: State, req: OrderRequest, auth: set<Address>, now: nat)
    requires Valid(s) && CreateOrder(s, req, auth, now).Ok?
    ensures Valid(CreateOrder(s, req, auth, now).value.0)
  {
    var s' := CreateOrder(s, req, auth, now).value.0;
    var id := s.counter + 1;
    MoveKeepsBalancesNonNegative(s.ledger, req.buyer, s.contract, req.subtotal + TRANSACTION_FEE);
    forall i | i in s'.orders && i in s'.details ensures WellFormed(s'.orders[i], s'.details[i]) {
      if i != id {
        assert i in s.orders && i in s.details;
      }
    }
  }

  lemma UpdateOrderStatusPreservesValid(s: State, id: nat, status: OrderStatus, auth: set<Address>)
    requires Valid(s) && UpdateOrderStatus(s, id, status, auth).Ok?
    ensures Valid(UpdateOrderStatus(s, id, status, auth).value)
  {
    var s' := UpdateOrderStatus(s, id, status, auth).value;
    forall i | i in s'.orders && i in s'.details ensures WellFormed(s'.orders[i], s'.details[i]) {
      assert i in s.orders && i in s.details;
    }
  }

  lemma CancelOrderPreservesValid(s: State, id: nat, auth: set<Address>, now: nat)
    requires Valid(s) && CancelOrder(s, id, auth, now).Ok?
    ensures Valid(CancelOrder(s, id, auth, now).value)
  {
    var s' := CancelOrder(s, id, auth, now).value;
    MoveKeepsBalancesNonNegative(s.ledger, s.contract, s.orders[id].buyer, s.orders[id].total);
    forall i | i in s'.orders && i in s'.details ensures WellFormed(s'.orders[i], s'.details[i]) {
      assert i in s.orders && i in s.details;
    }
  }

  lemma WithdrawPreservesValid(s: State, auth: set<Address>)
    requires Valid(s) && Withdraw(s, auth).Ok?
    ensures Valid(Withdraw(s, auth).value)
  {
    MoveKeepsBalancesNonNegative(s.ledger, s.contract, s.owner.value, BalanceOf(s.ledger, s.contract));
  }

  /** Every invocation, successful or rolled back, keeps the invariant. */
  lemma StepPreservesValid(s: State, tx: Tx)
    requires Valid(s)
    ensures Valid(Step(s, tx))
  {
    if Apply(s, tx).Ok? {
      match tx.call
      case CreateOrderCall(req) => CreateOrderPreservesValid(s, req, tx.auth, tx.now);
      case UpdateOrderStatusCall(id, status) => UpdateOrderStatusPreservesValid(s, id, status, tx.auth);
      case CancelOrderCall(id) => CancelOrderPreservesValid(s, id, tx.auth, tx.now);
      case WithdrawCall => WithdrawPreservesValid(s, tx.auth);
      case InitCall(_, _) =>
      case TransferOwnershipCall(_) =>
    }
  }

  /** Every state reachable by invocations from a valid state is valid: ids 1..counter all have an order and its details. */
  lemma {:induction false} RunPreservesValid(s: State, txs: seq<Tx>)
    requires Valid(s)
    ensures Valid(Run(s, txs))
    decreases |txs|
  {
    if txs != [] {
      StepPreservesValid(s, txs[0]);
      RunPreservesValid(Step(s, txs[0]), txs[1..]);
    }
  }

  lemma DeployedIsValid(contract: Address, ledger: map<Address, int>)
    requires forall a :: a in ledger ==> ledger[a] >= 0
    ensures Valid(Deployed(contract, ledger))
  {
  }

  // ---------------------------------------------------------------- histories

  /** Once an owner is stored, no invocation removes it. */
  lemma StepKeepsOwner(s: State, tx: Tx)
    ensures s.owner.Some? ==> Step(s, tx).owner.Some?
    ensures s.owner.None? && Step(s, tx).owner.Some? ==> tx.call.InitCall? && Apply(s, tx).Ok?
  {
  }

  /** In any history, at most one `init` succeeds, and none once an owner is stored. */
  lemma {:induction false} InitSucceedsAtMostOnce(s: State, txs: seq<Tx>)
    ensures SuccessfulInits(s, txs) <= (if s.owner.None? then 1 else 0)
    decreases |txs|
  {
    if txs != [] {
      StepKeepsOwner(s, txs[0]);
      InitSucceedsAtMostOnce(Step(s, txs[0]), txs[1..]);
    }
  }

  /** The counter counts the successful `create_order`s: ids are handed out 1, 2, 3, ... with no gaps. */
  lemma {:induction false} CounterCountsCreatedOrders(s: State, txs: seq<Tx>)
    requires Valid(s)
    ensures Run(s, txs).counter == s.counter + CreatedOrders(s, txs)
    decreases |txs|
  {
    if txs != [] {
      StepPreservesValid(s, txs[0]);
      CounterCountsCreatedOrders(Step(s, txs[0]), txs[1..]);
    }
  }

  /** One invocation never rewrites a stored order's buyer, total, timestamp or details, nor revives a cancelled one. */
  lemma StepFreezesOrder(s: State, tx: Tx, id: nat)
    requires Valid(s) && id in s.orders
    ensures var s' := Step(s, tx);
      && id in s'.orders && id in s'.details
      && s'.details[id] == s.details[id]
      && s'.orders[id].buyer == s.orders[id].buyer
      && s'.orders[id].total == s.orders[id].total
      && s'.orders[id].timestamp == s.orders[id].timestamp
      && (s.orders[id].status == Cancelled ==> s'.orders[id].status == Cancelled)
  {
  }

  /** In any history, a stored order keeps its buyer, total, timestamp and details, and a cancelled order stays cancelled. */
  lemma {:induction false} OrderHistoryFrozen(s: State, txs: seq<Tx>, id: nat)
    requires Valid(s) && id in s.orders
    ensures var s' := Run(s, txs);
      && id in s'.orders && id in s'.details
      && s'.details[id] == s.details[id]
      && s'.orders[id].buyer == s.orders[id].buyer
      && s'.orders[id].total == s.orders[id].total
      && s'.orders[id].timestamp == s.orders[id].timestamp
      && (s.orders[id].status == Cancelled ==> s'.orders[id].status == Cancelled)
    decreases |txs|
  {
    if txs != [] {
      StepFreezesOrder(s, txs[0], id);
      StepPreservesValid(s, txs[0]);
      OrderHistoryFrozen(Step(s, txs[0]), txs[1..], id);
    }
  }
}
