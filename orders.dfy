/**
 * The ChowFastOrder Soroban contract as a pure state machine.
 *
 * Every public entry point of the contract is a function from the contract's
 * storage (and the payment token's balances) to either the new storage or the
 * reason the invocation panicked. A panic aborts the transaction, so on `Err`
 * the host keeps the old state; `Step` applies that rule.
 *
 * Host machinery becomes explicit data: `require_auth` is a set of addresses
 * that signed the invocation, the ledger clock is a parameter `now`, the token
 * client is the balance map `ledger`, and published events are appended to
 * `events`.
 */
module Orders {
  import opened Outcome

  type Address = string

  /** Flat fee added to every order, in stroops. */
  const TRANSACTION_FEE: int := 10_000_000
  /** Cancellation window after an order's timestamp, in seconds (inclusive). */
  const FIVE_MINUTES: nat := 300
  const U64_MAX: nat := 0xFFFF_FFFF_FFFF_FFFF
  const I128_MAX: int := 0x7FFF_FFFF_FFFF_FFFF_FFFF_FFFF_FFFF_FFFF

  /** Lifecycle of an order; stored as a u32 with the codes of `StatusCode`. */
  datatype OrderStatus = Pending | Paid | Confirmed | Completed | Cancelled

  function StatusCode(st: OrderStatus): nat {
    match st
    case Pending => 0
    case Paid => 1
    case Confirmed => 2
    case Completed => 3
    case Cancelled => 4
  }

  function StatusOfCode(code: nat): Option<OrderStatus> {
    if code == 0 then Some(Pending)
    else if code == 1 then Some(Paid)
    else if code == 2 then Some(Confirmed)
    else if code == 3 then Some(Completed)
    else if code == 4 then Some(Cancelled)
    else None
  }

  datatype Order = Order(buyer: Address, total: int, timestamp: nat, status: OrderStatus)

  datatype OrderDetails = OrderDetails(
    deliveryInfo: string,
    productIds: seq<string>,
    productNames: seq<string>,
    prices: seq<int>,
    quantities: seq<int>)

  /** The arguments of `create_order` other than the environment. */
  datatype OrderRequest = OrderRequest(
    buyer: Address,
    productIds: seq<string>,
    productNames: seq<string>,
    prices: seq<int>,
    quantities: seq<int>,
    subtotal: int,
    deliveryInfo: string)

  /** Why an invocation panicked. */
  datatype Error =
    | AlreadyInitialized   // "Already initialized"
    | NotInitialized       // `unwrap` of the missing Owner or TokenAddress slot
    | Unauthorized         // a `require_auth` that was not signed
    | NoItems              // "No items"
    | ArrayLengthMismatch  // "Array length mismatch"
    | NonPositiveSubtotal  // "Zero or negative subtotal"
    | NoDeliveryInfo       // "No delivery info"
    | ArithmeticOverflow   // i128 / u64 overflow of an overflow-checked build
    | InsufficientBalance  // the token contract refuses the transfer
    | OrderNotFound        // "Order not found"
    | MissingEntry         // `unwrap` of a missing Order slot
    | OrderCancelled       // "Order cancelled"
    | NotPaid              // "Can only cancel paid orders"
    | CancellationExpired  // "Cancellation time expired"
    | NoFunds              // "No funds to withdraw"

  datatype Event =
    | OrderNew(id: nat, buyer: Address, total: int, timestamp: nat)
    | StatusChanged(id: nat, status: OrderStatus)
    | OrderCancel(id: nat, buyer: Address)
    | Withdrawn(owner: Address, amount: int)

  /**
   * The contract's storage (Owner, TokenAddress, OrderCounter, Order(id),
   * OrderDetails(id)), its own address, the payment token's balances and the
   * published events. An absent OrderCounter reads as 0, so it is a `nat`.
   */
  datatype State = State(
    contract: Address,
    owner: Option<Address>,
    token: Option<Address>,
    counter: nat,
    orders: map<nat, Order>,
    details: map<nat, OrderDetails>,
    ledger: map<Address, int>,
    events: seq<Event>)

  /** A freshly deployed contract, before `init`. */
  function Deployed(contract: Address, ledger: map<Address, int>): State {
    State(contract, None, None, 0, map[], map[], ledger, [])
  }

  // ---------------------------------------------------------------- token

  function BalanceOf(ledger: map<Address, int>, a: Address): int {
    if a in ledger then ledger[a] else 0
  }

  /** The token contract accepts a transfer of a non-negative amount the sender holds. */
  predicate CanTransfer(ledger: map<Address, int>, from: Address, amount: int) {
    0 <= amount <= BalanceOf(ledger, from)
  }

  /** Balances after a transfer: debit the sender, then credit the receiver. */
  function Move(ledger: map<Address, int>, from: Address, to: Address, amount: int): map<Address, int> {
    var debited := ledger[from := BalanceOf(ledger, from) - amount];
    debited[to := BalanceOf(debited, to) + amount]
  }

  // ---------------------------------------------------------------- rules

  /** `u64::saturating_sub`: a difference that would be negative is 0. */
  function SaturatingSub(a: nat, b: nat): nat {
    if a >= b then a - b else 0
  }

  /** The 5-minute rule of `cancel_order`, boundary included. */
  predicate WithinCancelWindow(now: nat, placedAt: nat) {
    SaturatingSub(now, placedAt) <= FIVE_MINUTES
  }

  /** The four validation checks of `create_order`, in source order. */
  function Validate(req: OrderRequest): Option<Error> {
    if |req.productIds| == 0 then Some(NoItems)
    else if |req.productIds| != |req.productNames|
         || |req.productIds| != |req.prices|
         || |req.productIds| != |req.quantities| then Some(ArrayLengthMismatch)
    else if req.subtotal <= 0 then Some(NonPositiveSubtotal)
    else if |req.deliveryInfo| == 0 then Some(NoDeliveryInfo)
    else None
  }

  function DetailsOf(req: OrderRequest): OrderDetails {
    OrderDetails(req.deliveryInfo, req.productIds, req.productNames, req.prices, req.quantities)
  }

  /** What every stored order satisfies: the checks `create_order` made before storing it. */
  predicate WellFormed(o: Order, d: OrderDetails) {
    && TRANSACTION_FEE < o.total <= I128_MAX
    && |d.productIds| > 0
    && |d.productNames| == |d.productIds|
    && |d.prices| == |d.productIds|
    && |d.quantities| == |d.productIds|
    && |d.deliveryInfo| > 0
  }

  /**
   * The invariant of reachable states: owner and token are set together, the
   * counter fits a u64 and is 0 before `init`, orders 1..counter are exactly
   * the stored ones, each with its details, and no balance is negative.
   */
  ghost predicate Valid(s: State) {
    && (s.owner.Some? <==> s.token.Some?)
    && (s.owner.None? ==> s.counter == 0)
    && s.counter <= U64_MAX
    && (forall id :: id in s.orders <==> 1 <= id <= s.counter)
    && (forall id :: id in s.details <==> 1 <= id <= s.counter)
    && (forall id :: id in s.orders && id in s.details ==> WellFormed(s.orders[id], s.details[id]))
    && (forall a :: a in s.ledger ==> s.ledger[a] >= 0)
  }

  // ---------------------------------------------------------------- entry points

  /** `init`: store owner, token and a zero counter, once. */
  function Init(s: State, owner: Address, token: Address, auth: set<Address>): Result<State, Error> {
    if s.owner.Some? then Err(AlreadyInitialized)
    else if owner !in auth then Err(Unauthorized)
    else Ok(s.(owner := Some(owner), counter := 0, token := Some(token)))
  }

  /** `create_order`: validate, collect subtotal plus fee from the buyer, store order `counter + 1`. */
  function CreateOrder(s: State, req: OrderRequest, auth: set<Address>, now: nat): Result<(State, nat), Error> {
    if req.buyer !in auth then Err(Unauthorized)
    else if Validate(req).Some? then Err(Validate(req).value)
    else
      var total := req.subtotal + TRANSACTION_FEE;
      if total > I128_MAX then Err(ArithmeticOverflow)
      else if s.token.None? then Err(NotInitialized)
      else if !CanTransfer(s.ledger, req.buyer, total) then Err(InsufficientBalance)
      else if s.counter >= U64_MAX then Err(ArithmeticOverflow)
      else
        var id := s.counter + 1;
        Ok((s.(ledger := Move(s.ledger, req.buyer, s.contract, total),
               counter := id,
               orders := s.orders[id := Order(req.buyer, total, now, Paid)],
               details := s.details[id := DetailsOf(req)],
               events := s.events + [OrderNew(id, req.buyer, total, now)]),
            id))
  }

  /** `update_order_status`: the owner sets any status on an order that is not cancelled. */
  function UpdateOrderStatus(s: State, id: nat, status: OrderStatus, auth: set<Address>): Result<State, Error> {
    if s.owner.None? then Err(NotInitialized)
    else if s.owner.value !in auth then Err(Unauthorized)
    else if id == 0 || id > s.counter then Err(OrderNotFound)
    else if id !in s.orders then Err(MissingEntry)
    else if s.orders[id].status == Cancelled then Err(OrderCancelled)
    else Ok(s.(orders := s.orders[id := s.orders[id].(status := status)],
               events := s.events + [StatusChanged(id, status)]))
  }

  /** `cancel_order`: the buyer cancels a paid order within five minutes and is refunded its total. */
  function CancelOrder(s: State, id: nat, auth: set<Address>, now: nat): Result<State, Error> {
    if id == 0 || id > s.counter then Err(OrderNotFound)
    else if id !in s.orders then Err(MissingEntry)
    else
      var order := s.orders[id];
      if order.buyer !in auth then Err(Unauthorized)
      else if order.status != Paid then Err(NotPaid)
      else if !WithinCancelWindow(now, order.timestamp) then Err(CancellationExpired)
      else if s.token.None? then Err(NotInitialized)
      else if !CanTransfer(s.ledger, s.contract, order.total) then Err(InsufficientBalance)
      else Ok(s.(orders := s.orders[id := order.(status := Cancelled)],
                 ledger := Move(s.ledger, s.contract, order.buyer, order.total),
                 events := s.events + [OrderCancel(id, order.buyer)]))
  }

  /** `withdraw`: the owner takes the contract's whole token balance. */
  function Withdraw(s: State, auth: set<Address>): Result<State, Error> {
    if s.owner.None? then Err(NotInitialized)
    else if s.owner.value !in auth then Err(Unauthorized)
    else if s.token.None? then Err(NotInitialized)
    else
      var balance := BalanceOf(s.ledger, s.contract);
      if balance <= 0 then Err(NoFunds)
      else Ok(s.(ledger := Move(s.ledger, s.contract, s.owner.value, balance),
                 events := s.events + [Withdrawn(s.owner.value, balance)]))
  }

  /** `transfer_ownership`: both the current and the new owner must sign. */
  function TransferOwnership(s: State, newOwner: Address, auth: set<Address>): Result<State, Error> {
    if s.owner.None? then Err(NotInitialized)
    else if s.owner.value !in auth || newOwner !in auth then Err(Unauthorized)
    else Ok(s.(owner := Some(newOwner)))
  }

  // ---------------------------------------------------------------- transactions

  datatype Call =
    | InitCall(owner: Address, token: Address)
    | CreateOrderCall(req: OrderRequest)
    | UpdateOrderStatusCall(id: nat, status: OrderStatus)
    | CancelOrderCall(id: nat)
    | WithdrawCall
    | TransferOwnershipCall(newOwner: Address)

  /** One invocation: the entry point, who signed it, and the ledger time. */
  datatype Tx = Tx(call: Call, auth: set<Address>, now: nat)

  function Apply(s: State, tx: Tx): Result<State, Error> {
    match tx.call
    case InitCall(owner, token) => Init(s, owner, token, tx.auth)
    case CreateOrderCall(req) =>
      (match CreateOrder(s, req, tx.auth, tx.now)
       case Ok((s', _)) => Ok(s')
       case Err(e) => Err(e))
    case UpdateOrderStatusCall(id, status) => UpdateOrderStatus(s, id, status, tx.auth)
    case CancelOrderCall(id) => CancelOrder(s, id, tx.auth, tx.now)
    case WithdrawCall => Withdraw(s, tx.auth)
    case TransferOwnershipCall(newOwner) => TransferOwnership(s, newOwner, tx.auth)
  }

  /** A panicking invocation is rolled back by the host. */
  function Step(s: State, tx: Tx): State {
    match Apply(s, tx)
    case Ok(s') => s'
    case Err(_) => s
  }

  function Run(s: State, txs: seq<Tx>): State
    decreases |txs|
  {
    if txs == [] then s else Run(Step(s, txs[0]), txs[1..])
  }

  /** How many invocations of `txs`, run from `s`, were successful `init`s. */
  function SuccessfulInits(s: State, txs: seq<Tx>): nat
    decreases |txs|
  {
    if txs == [] then 0
    else (if txs[0].call.InitCall? && Apply(s, txs[0]).Ok? then 1 else 0)
         + SuccessfulInits(Step(s, txs[0]), txs[1..])
  }

  /** How many invocations of `txs`, run from `s`, were successful `create_order`s. */
  function CreatedOrders(s: State, txs: seq<Tx>): nat
    decreases |txs|
  {
    if txs == [] then 0
    else (if txs[0].call.CreateOrderCall? && Apply(s, txs[0]).Ok? then 1 else 0)
         + CreatedOrders(Step(s, txs[0]), txs[1..])
  }
}
