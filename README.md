# fast-chow in Dafny

fast-chow is a storefront for snack packages paid for in Stellar Lumens. This
project models its two pieces of real logic:

- **The ChowFastOrder Soroban contract** (`my-contract/contracts/fast-chow/src/lib.rs`).
  It keeps an owner, a payment-token address, an order counter, and per order
  an `Order` (buyer, total, timestamp, status) and its `OrderDetails`. Its
  entry points are `init`, `create_order`, `update_order_status`,
  `cancel_order`, `withdraw`, `transfer_ownership` and five getters.
- **The static catalog** (`src/constants/products.ts`): nine packages in
  three categories, the category metadata, and the two computations the pages
  make over them: the category filter and the landing page's featured list.

The cart hook (`src/hooks/useCart`) is imported by the cart page and the cart
and checkout components, but its code was not available, so the cart is not
modelled.

## Layout

- `outcome.dfy` (module `Outcome`): `Option` and `Result`.
- `orders.dfy` (module `Orders`): the contract as a pure state machine.
  - `State` holds the storage slots, the contract's own address, the payment
    token's balances (`ledger`) and the published events.
  - Each entry point is a function returning the new `State` or the `Error`
    it panics with.
  - `Step` applies the host's rollback: a failed invocation changes nothing.
    `Run` replays a history of invocations.
  - `Valid` is the invariant of reachable states.
- `order_lemmas.dfy` (module `OrderLemmas`): the rules of each entry point,
  the invariant, and facts about whole histories.
- `contract.dfy` (module `Contract`): class `ChowFastOrder`.
  - Its fields are the storage slots.
  - Its methods make the Rust code's checks in the Rust code's order. Writes
    are committed once every check has passed; the host's rollback of a
    panicking invocation makes this equivalent to the Rust order of writes.
  - Each state-changing method is proved to commit exactly the `Orders`
    function's outcome, or nothing on a panic. Each keeps `Valid`.
  - `CancelScenario` is a usage example: a client that initialises the
    contract, places an order, cancels it inside the window and gets its
    refund, and then finds the order frozen.
- `catalog.dfy` (module `Catalog`) and `catalog_lemmas.dfy` (module
  `CatalogLemmas`): the catalog, the filter and the category page.

Host facilities are explicit data:
- `require_auth(a)` is the test `a in auth`, where `auth` is the set of
  addresses that signed the invocation. A missing signature is
  `Err(Unauthorized)`.
- `env.ledger().timestamp()` is a parameter `now`.
- The token client is the balance map `ledger`. A transfer fails when the
  amount is negative or exceeds the sender's balance.
- `.unwrap()` on a missing slot is `Err(NotInitialized)` or `Err(MissingEntry)`.
- Published events are appended to `events`.

## Model

| member | source | states |
|---|---|---|
| `OrderLemmas.StatusCodeRoundTrip` | my-contract/contracts/fast-chow/src/lib.rs:11-20 | the u32 codes 0..4 of `OrderStatus` decode back to their status, and no other code decodes |
| `OrderLemmas.InitOnlyOnce` | my-contract/contracts/fast-chow/src/lib.rs:59-69 | `init` succeeds iff no owner is stored and the owner signed; a stored owner gives `AlreadyInitialized`; success stores owner, token and counter 0 and touches nothing else |
| `OrderLemmas.StepKeepsOwner` | my-contract/contracts/fast-chow/src/lib.rs:60-68 | no invocation removes a stored owner, and only a successful `init` stores the first one |
| `OrderLemmas.InitSucceedsAtMostOnce` | my-contract/contracts/fast-chow/src/lib.rs:60-62 | in any history at most one `init` succeeds, and none once an owner is stored |
| `OrderLemmas.CreateOrderRejectsInvalid` | my-contract/contracts/fast-chow/src/lib.rs:84-102 | an empty id list, item vectors of different lengths, `subtotal <= 0` or empty delivery info abort `create_order`; once the buyer has signed, the first failing check in source order decides the error (`NoItems`, then `ArrayLengthMismatch`, then `NonPositiveSubtotal`, then `NoDeliveryInfo`) |
| `OrderLemmas.CreateOrderSucceedsIff` | my-contract/contracts/fast-chow/src/lib.rs:82-115 | `create_order` succeeds iff the buyer signed, the four checks pass, `subtotal + 10_000_000` fits an i128, the token is set, the buyer holds the total and the counter can grow |
| `OrderLemmas.CreateOrderAllocatesNextId` | my-contract/contracts/fast-chow/src/lib.rs:112-145 | a successful `create_order` returns `counter + 1`, which was unused, as the new counter, and stores `Order(buyer, subtotal + fee, now, Paid)` and the details under it; owner and token are unchanged; one `order_new` event is appended |
| `OrderLemmas.CreateOrderMovesTokens` | my-contract/contracts/fast-chow/src/lib.rs:104-110 | a successful `create_order` lowers the buyer's balance by exactly `subtotal + 10_000_000`, raises the contract's by the same amount, and leaves every other balance alone |
| `OrderLemmas.UpdateOrderStatusOnlySetsStatus` | my-contract/contracts/fast-chow/src/lib.rs:149-172 | `update_order_status` succeeds iff the owner signed, `1 <= id <= counter` and the order is not cancelled; it fails for id 0 or beyond the counter; success replaces that order's status with any requested value and changes no counter, detail, balance, owner or token |
| `OrderLemmas.CancelledIsFinal` | my-contract/contracts/fast-chow/src/lib.rs:158-187 | a cancelled order is refused by both `update_order_status` and `cancel_order` |
| `OrderLemmas.CancelWindowInclusive` | my-contract/contracts/fast-chow/src/lib.rs:189-195 | the window test `saturating_sub(now, timestamp) <= 300` holds iff `now <= timestamp + 300`, so the bound is inclusive and a clock behind the timestamp is inside it |
| `OrderLemmas.CancelOrderRefunds` | my-contract/contracts/fast-chow/src/lib.rs:175-211 | `cancel_order` succeeds iff the id is in range, the buyer signed, the order is Paid, the window holds and the contract holds the total; success marks only that order Cancelled, refunds exactly its total to the buyer and moves no other balance |
| `OrderLemmas.WithdrawEmptiesContract` | my-contract/contracts/fast-chow/src/lib.rs:214-234 | `withdraw` fails on a contract balance `<= 0` and succeeds iff the owner signed and the balance is positive; orders, details, counter, owner, token and every balance other than the owner's and the contract's are then unchanged; for an owner other than the contract itself, the owner gains the whole balance and the contract is left with 0 |
| `OrderLemmas.TransferOwnershipNeedsBoth` | my-contract/contracts/fast-chow/src/lib.rs:237-244 | `transfer_ownership` succeeds iff an owner is stored and both the current and the new owner signed; it changes only the owner |
| `OrderLemmas.WithdrawBlocksRefund` | my-contract/contracts/fast-chow/src/lib.rs:200-227 | right after a successful `withdraw` to an owner other than the contract itself, no order can be cancelled, even a Paid one inside its window, because the refund transfer has nothing to draw on |
| `OrderLemmas.MoveKeepsBalancesNonNegative` | my-contract/contracts/fast-chow/src/lib.rs:110 | a transfer the token accepts leaves no balance negative |
| `OrderLemmas.CreateOrderPreservesValid` | my-contract/contracts/fast-chow/src/lib.rs:113-137 | after `create_order` ids 1..counter are still exactly the stored orders and details, and every stored order still passed the validation checks |
| `OrderLemmas.UpdateOrderStatusPreservesValid` | my-contract/contracts/fast-chow/src/lib.rs:158-165 | `update_order_status` keeps the invariant |
| `OrderLemmas.CancelOrderPreservesValid` | my-contract/contracts/fast-chow/src/lib.rs:197-204 | `cancel_order` keeps the invariant |
| `OrderLemmas.WithdrawPreservesValid` | my-contract/contracts/fast-chow/src/lib.rs:221-227 | `withdraw` keeps the invariant |
| `OrderLemmas.StepPreservesValid` | my-contract/contracts/fast-chow/src/lib.rs:57-244 | every invocation, successful or rolled back, keeps the invariant |
| `OrderLemmas.DeployedIsValid` | my-contract/contracts/fast-chow/src/lib.rs:252-254 | a freshly deployed contract, whose counter reads as 0, satisfies the invariant |
| `OrderLemmas.RunPreservesValid` | my-contract/contracts/fast-chow/src/lib.rs:113-137 | in every reachable state each id in 1..counter has both an `Order` and an `OrderDetails` entry and no other id has one |
| `OrderLemmas.CounterCountsCreatedOrders` | my-contract/contracts/fast-chow/src/lib.rs:113-117 | over any history the counter grows by exactly the number of successful `create_order`s, so ids are 1, 2, 3, ... without gaps |
| `OrderLemmas.StepFreezesOrder` | my-contract/contracts/fast-chow/src/lib.rs:158-199 | one invocation keeps a stored order's buyer, total, timestamp and details, and a cancelled order cancelled |
| `OrderLemmas.OrderHistoryFrozen` | my-contract/contracts/fast-chow/src/lib.rs:158-199 | over any history a stored order keeps its buyer, total, timestamp and details, and a cancelled order stays cancelled |
| `Contract.ChowFastOrder.constructor` | my-contract/contracts/fast-chow/src/lib.rs:53-54 | a deployed contract has no owner, no token, counter 0 and no orders |
| `Contract.ChowFastOrder.Init` | my-contract/contracts/fast-chow/src/lib.rs:59-69 | commits exactly the outcome of `Orders.Init` and keeps the invariant |
| `Contract.ChowFastOrder.CreateOrder` | my-contract/contracts/fast-chow/src/lib.rs:72-146 | commits exactly the outcome of `Orders.CreateOrder`, returning the new counter as the id, and keeps the invariant |
| `Contract.ChowFastOrder.UpdateOrderStatus` | my-contract/contracts/fast-chow/src/lib.rs:149-172 | loads the order, sets its status and stores it back as `Orders.UpdateOrderStatus` says, and keeps the invariant |
| `Contract.ChowFastOrder.CancelOrder` | my-contract/contracts/fast-chow/src/lib.rs:175-211 | commits exactly the outcome of `Orders.CancelOrder` and keeps the invariant |
| `Contract.ChowFastOrder.Withdraw` | my-contract/contracts/fast-chow/src/lib.rs:214-234 | commits exactly the outcome of `Orders.Withdraw` and keeps the invariant |
| `Contract.ChowFastOrder.TransferOwnership` | my-contract/contracts/fast-chow/src/lib.rs:237-244 | commits exactly the outcome of `Orders.TransferOwnership` and keeps the invariant |
| `Contract.ChowFastOrder.GetOwner` | my-contract/contracts/fast-chow/src/lib.rs:247-249 | returns the stored owner and fails exactly when none is stored, which is before `init` |
| `Contract.ChowFastOrder.GetTotalOrders` | my-contract/contracts/fast-chow/src/lib.rs:252-254 | returns the counter n; orders 1..n all exist with details, and order n + 1 does not |
| `Contract.ChowFastOrder.GetOrder` | my-contract/contracts/fast-chow/src/lib.rs:257-259 | finds an order exactly for ids 1..counter, and its total exceeds the fee |
| `Contract.ChowFastOrder.GetOrderDetails` | my-contract/contracts/fast-chow/src/lib.rs:262-264 | finds details exactly for ids 1..counter, with at least one item and non-empty delivery info |
| `Contract.ChowFastOrder.GetTokenAddress` | my-contract/contracts/fast-chow/src/lib.rs:267-269 | returns the token address, which is set exactly when an owner is |
| `CatalogLemmas.CategoryKeyRoundTrip` | src/types/index.ts:26 | the three `CategoryType` strings and the categories correspond one to one |
| `CatalogLemmas.CatalogIdsDistinct` | src/constants/products.ts:3-90 | the catalog has nine products with pairwise distinct ids |
| `CatalogLemmas.CategoriesContiguous` | src/constants/products.ts:4-89 | products 0-2 are budget, 3-5 middle and 6-8 bulk |
| `CatalogLemmas.CatalogRuns` | src/constants/products.ts:4-89 | the catalog is the budget run, then the middle run, then the bulk run, three products each |
| `CatalogLemmas.ProductsWellPriced` | src/constants/products.ts:9-108 | every price is a positive whole number inside its category's advertised range (100-300, 400-800, 5,000+), and every package lists at least one item |
| `Catalog.FilterByCategory` | src/pages/Category.tsx:13-15 | the filtered list is never longer than the catalog it filters |
| `CatalogLemmas.FilterMembership` | src/pages/Category.tsx:13-15 | a product is in the filtered list iff it is in the catalog and its category's string equals the key |
| `CatalogLemmas.FilterDistributes` | src/pages/Category.tsx:13-15 | filtering keeps declaration order: it distributes over concatenation |
| `CatalogLemmas.FilterKeepsMatching` | src/pages/Category.tsx:13-15 | a list whose products all match the key is kept whole |
| `CatalogLemmas.FilterDropsOthers` | src/pages/Category.tsx:13-15 | a list with no matching product filters to nothing |
| `CatalogLemmas.FilterKeepsRun` | src/pages/Category.tsx:13-15 | a category's run filtered by its own key is kept whole |
| `CatalogLemmas.FilterDropsRun` | src/pages/Category.tsx:13-15 | a category's run filtered by another key is dropped |
| `CatalogLemmas.FilterCatalogByRuns` | src/pages/Category.tsx:13-15 | filtering the catalog is filtering each run in turn |
| `CatalogLemmas.FilterBudgetOnCatalog` | src/pages/Category.tsx:13-15 | `budget` selects exactly products 0-2, in order |
| `CatalogLemmas.FilterMiddleOnCatalog` | src/pages/Category.tsx:13-15 | `middle` selects exactly products 3-5, in order |
| `CatalogLemmas.FilterBulkOnCatalog` | src/pages/Category.tsx:13-15 | `bulk` selects exactly products 6-8, in order |
| `CatalogLemmas.FilterByCategoryOnCatalog` | src/pages/Category.tsx:13-15 | each category's key selects exactly its three products, in declaration order |
| `CatalogLemmas.FilterUnknownKeyIsEmpty` | src/pages/Category.tsx:13-15 | a key naming no category selects nothing: an empty list, not an error |
| `Catalog.Take` | src/pages/Home.tsx:12-14 | `slice(0, n)` is a prefix of length `min(n, length)` |
| `CatalogLemmas.FirstTwoOfCategory` | src/pages/Home.tsx:12-14 | `slice(0, 2)` of a category's products is the first two of its run |
| `CatalogLemmas.FeaturedIsFirstTwoOfEach` | src/pages/Home.tsx:11-15 | the landing page features six products: the first two budget, then middle, then bulk |
| `CatalogLemmas.LookupSucceedsExactlyForCategoryKeys` | src/constants/products.ts:92-108 | an own-property lookup in `CATEGORIES` succeeds exactly for `budget`, `middle` and `bulk`, with that category's metadata |
| `CatalogLemmas.CategoryPageNotFoundIff` | src/pages/Category.tsx:18-30 | with the lookup on own properties, the page says "not found" exactly for keys that are not a category, and otherwise shows that category's metadata and exactly its three catalog products, in declaration order |
| `CatalogLemmas.ConstructorKeyIsNotNotFound` | src/pages/Category.tsx:18-20 | as written, `/category/constructor` finds the inherited `Object.prototype.constructor` and renders an untitled, empty listing instead of "not found" |
| `CatalogLemmas.AsWrittenDiffersOnlyOnInheritedNames` | src/pages/Category.tsx:18-20 | the page as written and the corrected page differ exactly on the names inherited from `Object.prototype` |

## Findings

| source | as written | input that shows it | evidently intended | confidence | as-written member | corrected member |
|---|---|---|---|---|---|---|
| src/pages/Category.tsx:18-20 | `CATEGORIES[validCategory]` is a plain property read, so it also finds what every object inherits from `Object.prototype`. Those values are truthy, so `!categoryInfo` lets them through | the route parameter `constructor` (likewise `toString`, `valueOf`, `__proto__`, ...) | "Category Not Found" for every key other than `budget`, `middle` and `bulk` | not executed; high (standard JavaScript property lookup) | `CatalogLemmas.ConstructorKeyIsNotNotFound` | `CatalogLemmas.CategoryPageNotFoundIff` |

`Catalog.CategoryPageAsWritten` is the page as written, and
`Catalog.CategoryPageView` is the page with an own-property lookup
(`Catalog.LookupCategory`).

## Notes on the source

- `TRANSACTION_FEE` is the integer `10_000_000`
  (my-contract/contracts/fast-chow/src/lib.rs:7). Its comment calls this
  "0.001 XLM" but also says 1 XLM is 10,000,000 stroops, which makes it 1 XLM.
  The model uses the integer.
- `create_order` checks neither that `subtotal` equals the sum of price times
  quantity nor that quantities are positive. The model checks neither.
- `update_order_status` has no transition rules. The owner may set any
  status, including `Cancelled` (with no refund) or back to `Paid`. Only an
  already cancelled order is refused.
- `withdraw` takes the contract's whole balance, including totals that
  `cancel_order` would still refund. For an owner other than the contract
  itself, `OrderLemmas.WithdrawBlocksRefund` shows that right after such a
  withdrawal no order can be cancelled. Until new payments reach the contract
  every cancellation fails, and refunds are then paid out of other buyers'
  money, since the refund transfer draws on the pooled balance. The source
  states no intent either way, so this is not listed as a finding.

## Left out

- The cart container: the `useCart` hook is imported by the cart page and the cart and checkout components, but the code of src/hooks/useCart was not available, so add, update, remove and totals are not modelled.
- React rendering, routing and layout of the pages and components: only the category filter, the featured list and the category page's not-found decision are modelled.
- Front-end fee and totals (`0.00001`, `getTotalPrice() + transactionFee`, `toFixed`): floating point and string formatting.
- src/components/WalletConnect.tsx: an alert with no logic.
- The TypeScript `Order` interface (src/types/index.ts:16-24): a type with no runtime behaviour, whose statuses (`pending`, `paid`, `confirmed`) do not match the contract's `OrderStatus`; none of the modelled code uses it.
- Soroban storage kinds and TTLs: instance and persistent storage are one set of fields.
- Event topics: events are kept as a typed log, not as XDR topic and data tuples.
- Integer widths of token balances: balances are unbounded integers. Only the contract's own i128 and u64 arithmetic (`subtotal + TRANSACTION_FEE`, `counter += 1`) is bounded. Its overflow is modelled as a panic (`ArithmeticOverflow`), as in a build with overflow checks on. The workspace's build profile is not part of this model; a build without overflow checks would wrap instead.
- Authorization: `require_auth` is reduced to "this address signed the invocation". Nonces, signature payloads and the contract authorizing its own outgoing transfers are not modelled.
- `OrderLemmas.CreateOrderMovesTokens`: stated for a buyer other than the contract itself. Paying oneself leaves every balance unchanged.
- `OrderLemmas.CancelOrderRefunds`: the balance clauses are stated for a buyer other than the contract itself, for the same reason.
- `OrderLemmas.WithdrawEmptiesContract`: the owner's and the contract's balance clauses are stated for an owner other than the contract itself, for the same reason; the storage frame and the other balances are stated for every owner.
