# Order book node: a Dafny model

This project models the core of a small peer-to-peer exchange node. There are
three parts:

- **The order book** (`src/orderbook.js`) keeps two sorted arrays of resting
  orders. The buys are sorted by price descending, then id ascending. The
  sells are sorted by price ascending, then id ascending. The sign of an
  order's `amount` gives its side. Incoming orders are matched with
  price-time priority, and any residual rests on its own side.
- **The lock store** (`src/mutex.js`) is a set of client ids. It records
  which peers have announced a join in progress.
- **The node** (`src/client.js`) has three pieces:
  - the handler of inbound requests (`mutex:lock`, `mutex:unlock`,
    `book:sync`, `new:order`);
  - the join sequence run at startup: lock the peers, announce, wait to be
    listed, sync the book, release the peers, trade;
  - the guard that holds an order back while any peer holds a lock.

The model has four modules:

- `BookSpec` (book_spec.dfy) is the value-level specification:
  - sorted insertion `Insert`;
  - one matching walk `Match`, shared by both sides;
  - `Fulfil` (for `fulfillOrder`), `Place` (for `placeMarketOrder`),
    `Added` (for `addOrder`) and `Seeded` (for `init`);
  - the lemmas about these functions.
- `OrderBookEngine` (orderbook.dfy) holds the class `OrderBook`:
  - its fields `buys` and `sells` are sequences that its methods reassign,
    with the same loops and branches as the JavaScript;
  - each method's postcondition ties the new state and the results to the
    `BookSpec` function of the old state;
  - the class invariant `Valid()` (both sides sorted and of one sign)
    holds before and after each method.
- `MutexStore` (mutex.dfy) holds the class `Mutex` over a `set` field.
- `Client` (client.dfy) models the node. Every call to the directory or to
  peers is replaced by the outcome it ended with:
  - `Ok(data)`;
  - `LookupEmpty` (the directory's `ERR_GRAPE_LOOKUP_EMPTY`);
  - `OtherErr`.

  A sequence of lookups is a function from the try number to its outcome.

The model follows the code as written; in particular:

- `init` adds the received orders on top of the orders already held. It does
  not clear the book first (`Seeded`, `SyncOrderBook`).
- An order with amount 0 counts as a sell: `addOrder` (reached through
  `init`) puts it among the sells (`AddedCounts`). Placed as a new order,
  it matches nothing and rests nowhere, yet `placeMarketOrder` returns true
  for it, because its residual is already 0 (`ZeroAmountPlace`).
- `placeMarketOrder` returns true when a resting order was consumed
  completely, or when the incoming residual reached 0. This is the same as
  saying that the book did not grow (`PlaceProperties`).
- `releaseMutexLock` passes on any error other than an empty lookup. Such an
  error is therefore fatal at startup, just like a failed lock request
  (`ReleaseMutexLock`, `Startup`).
- In the trading loop, the error handler sits outside the recursive call.
  The first failed broadcast of an order, including an empty lookup,
  therefore ends trading (`TradingContinues`).
- `WorkedExample`: after buys (1,100,5), (2,101,3), (3,100,2), a sell of 6
  at 100 consumes id 2 and takes 3 of id 1's 5 units, leaving 2
  (src/orderbook.js:89-103).
- At equal price, ties are broken by comparing ids with `<`. The ids are the
  transport's request ids, not arrival times, so "time priority" is the id
  order.

## Model

| member | source | states |
|---|---|---|
| BookSpec.Scaled | src/orderbook.js:15 | the sort key is price times the direction argument (1 or −1) |
| BookSpec.Insert | src/orderbook.js:38-47 | sorted insertion yields a sequence exactly one longer |
| BookSpec.InsertMultiset | src/orderbook.js:42 | insertion adds the new order and loses or duplicates no resting order |
| BookSpec.SpliceIsInsert | src/orderbook.js:14-47 | splicing at an index that separates "strictly smaller key" from "not smaller" is the same as sorted insertion |
| BookSpec.InsertKeepsSorted | src/orderbook.js:41-46 | insertion keeps a side ordered by (direction·price, id) |
| BookSpec.InsertKeepsSide | src/orderbook.js:39-46 | insertion of an order of a side's sign keeps every order of that side of one sign |
| BookSpec.MatchStep | src/orderbook.js:61-79 | one loop turn: exact fill, partial fill (order reduced and put back at the front, residual 0), or full consumption with the residual carried on |
| BookSpec.MatchProperties | src/orderbook.js:61-79 | the consumed orders are a prefix of the opposite side and each of them crossed; the quantity filled equals the quantity removed from the opposite side; the walk stops only when the residual is no longer pending, the side is empty or its best price does not cross |
| BookSpec.MatchShape | src/orderbook.js:61-79 | afterwards the opposite side is the unconsumed suffix, or, after a partial fill, that suffix with its first order reduced but the same id and price, and the residual 0 |
| BookSpec.MatchBounds | src/orderbook.js:61-111 | the residual stays between 0 and the incoming amount, on the incoming side of zero |
| BookSpec.StopReason | src/orderbook.js:61-110 | the loop ends with residual 0, an empty opposite side, or a best price that does not cross |
| BookSpec.MatchKeepsOrder | src/orderbook.js:68-72 | matching, the partial fill included, keeps the opposite side sorted and of one sign |
| BookSpec.PartialFrontKeepsSign | src/orderbook.js:68-72 | an order reduced by a partial fill keeps its sign |
| BookSpec.PartialFill | src/orderbook.js:68-72 | a residual smaller than the best order leaves that order at index 0 with amount + residual, the same id and price, the rest of the side unchanged, and the residual 0 |
| BookSpec.AddedKeepsValid | src/orderbook.js:38-47 | `addOrder` keeps both sides sorted and of one sign |
| BookSpec.AddedCounts | src/orderbook.js:39-46 | a positive amount goes into the buys and anything else, 0 included, into the sells; the other side is unchanged; the book holds one more order |
| BookSpec.AddedSnapshot | src/orderbook.js:38-47 | `addOrder` grows the list of all orders by exactly the new order |
| BookSpec.FulfilProperties | src/orderbook.js:52-113 | a bid changes only the sells and an ask only the buys; the residual keeps the incoming sign and does not exceed it; the quantity is conserved; the loop stops for one of the three reasons |
| BookSpec.FulfilKeepsValid | src/orderbook.js:52-113 | `fulfillOrder` keeps the book valid |
| BookSpec.PlaceProperties | src/orderbook.js:115-127 | the book stays valid; a non-zero residual rests on the incoming side with `amount = residual` and a zero residual adds nothing; the new size is the old one minus the consumed orders, plus one for a resting residual; the result is true iff a resting order was consumed or the residual reached 0, iff the book did not grow |
| BookSpec.ZeroAmountPlace | src/orderbook.js:115-127 | an order of amount 0 leaves the book unchanged and returns true |
| BookSpec.PlaceOnEmpty | src/orderbook.js:115-127 | on an empty book a non-zero order rests as it is and the result is false |
| BookSpec.SeededKeepsValid | src/orderbook.js:10-12 | `init` keeps the book valid |
| BookSpec.SeededKeeps | src/orderbook.js:10-12 | `init` keeps every order already held and adds each given order: the size grows by their number, and the multiset of all orders grows by theirs |
| BookSpec.SeededAppend | src/orderbook.js:10-12 | `init` of a concatenation is `init` of the first part followed by `init` of the second |
| BookSpec.InsertLast | src/orderbook.js:14-47 | an order with a key larger than every resting key is appended at the end |
| BookSpec.SeedBuys | src/orderbook.js:10-12 | seeding strictly sorted buys into an empty book rebuilds them as given |
| BookSpec.SeedSells | src/orderbook.js:10-12 | seeding strictly sorted sells after the buys rebuilds them as given |
| BookSpec.SnapshotSeedRoundTrip | src/orderbook.js:10-12 | `init` of a fresh book with another book's `getAllOrders` rebuilds that book, when no two orders of a side share a key |
| BookSpec.WorkedExample | src/orderbook.js:38-127 | three buys rest best price first, then lower id first; a sell of 6 consumes the best buy and leaves 2 on the next one |
| OrderBookEngine.OrderBook.constructor | src/orderbook.js:5-8 | a new book is empty and valid |
| OrderBookEngine.OrderBook.BinarySearch | src/orderbook.js:14-36 | the index is in [0, length]; on a sorted input, every order before it has a strictly smaller (direction·price, id) key and no order from it on does |
| OrderBookEngine.OrderBook.AddOrder | src/orderbook.js:38-50 | the new state is `Added` of the old one, and the book stays valid |
| OrderBookEngine.OrderBook.Init | src/orderbook.js:10-12 | the new state is `Seeded` of the old one: one `addOrder` per element, in order, without clearing |
| OrderBookEngine.OrderBook.FulfillOrder | src/orderbook.js:52-113 | the new state, the matched orders and the residual are `Fulfil` of the old state; the book stays valid |
| OrderBookEngine.OrderBook.PlaceMarketOrder | src/orderbook.js:115-127 | the new state and the result are `Place` of the old state; the book stays valid |
| OrderBookEngine.OrderBook.GetOrderBookLength | src/orderbook.js:129-131 | the number of resting orders on both sides |
| OrderBookEngine.OrderBook.GetAllOrders | src/orderbook.js:133-135 | every resting order, buys first and then sells, each side in its own order |
| MutexStore.Locked | src/mutex.js:9-12 | after a lock the id is present, and no other id changes membership |
| MutexStore.Unlocked | src/mutex.js:13-16 | after an unlock the id is absent, and no other id changes membership |
| MutexStore.LockIdempotent | src/mutex.js:9-12 | locking twice is locking once |
| MutexStore.UnlockIdempotent | src/mutex.js:13-16 | unlocking twice is unlocking once; unlocking an absent id changes nothing |
| MutexStore.LockUnlockRestores | src/mutex.js:9-16 | a lock followed by an unlock of an id that was absent restores the set |
| MutexStore.Mutex.constructor | src/mutex.js:6-8 | a new store holds no lock |
| MutexStore.Mutex.LockClient | src/mutex.js:9-12 | the set becomes `Locked` of the old set |
| MutexStore.Mutex.UnlockClient | src/mutex.js:13-16 | the set becomes `Unlocked` of the old set |
| MutexStore.Mutex.IsAnyClientLocked | src/mutex.js:18-21 | true iff some client is locked |
| Client.Dispatch | src/client.js:35-61 | "mutex:lock" and "mutex:unlock" add and remove the id, leave every other id's membership as it was, and reply success; "book:sync" replies with all orders; "new:order" places the order under the request id and replies with `success: true`, `isFulfilled` and the new length; only "new:order" changes the book, and only the two mutex keys change the lock set; an unknown key changes nothing and sends no reply |
| Client.DispatchKeepsBookValid | src/client.js:48-57 | no request breaks the order of either side of the book |
| Client.HandleRequest | src/client.js:35-61 | the handler acting on the node's `OrderBook` and `Mutex` ends in the state and reply `Dispatch` gives |
| Client.RequestMutexLock | src/client.js:63-80 | the lock broadcast rejects iff it failed with an error other than an empty lookup |
| Client.ReleaseMutexLock | src/client.js:137-158 | the release resolves iff peers replied or none was found; any other error is passed on |
| Client.ReleaseAsStrictAsRequest | src/client.js:63-158 | the release tolerates exactly the outcomes the lock request tolerates |
| Client.WaitForClientRegistration | src/client.js:82-114 | between 1 and 100 lookups; it stops at the first lookup that lists the client; a failed lookup uses up a try; it succeeds iff one of the 100 lookups lists the client, and it fails only after all 100 |
| Client.SyncOrderBook | src/client.js:116-135 | an empty lookup leaves the book unchanged; a reply is passed to `init`; any other error rejects |
| Client.Startup | src/client.js:160-186 | the steps attempted are a prefix of lock, announce ×3, await registration, sync, release, announce "book:sync", trade; trading starts iff every step settled; the book is seeded only by a successful sync |
| Client.FirstNodeStarts | src/client.js:160-186 | a node whose lock and sync find no peer, whose release does not fail with another error, and which sees itself listed, runs every step with its book as it was |
| Client.Start | src/client.js:160-186 | the startup method attempts the steps, ends trading or not, and leaves the book as `Startup` says; the book stays valid |
| Client.SubmitNewOrder | src/client.js:204-209 | an order is broadcast iff no client is locked, and it carries the given price and amount |
| Client.TradingContinues | src/client.js:188-202 | trading goes on iff the broadcast of the order succeeded |

## Left out

- The grenache transport (`Link`, `PeerRPCServer`, `PeerRPCClient`), the port listening, the timeouts and the contents of lookups and broadcasts. Each network step is an abstract outcome parameter.
- Timed delays (`setTimeout`), including the 10-second pause between registration lookups.
- Client.SubmitNewOrder: the 100 ms polling loop is modelled as a single check of the lock set. The loop itself waits for other handlers to run, and the model has no interleaving.
- The random port, client id, price, amount and delay in `startTrading`, with their floating-point rounding (`toFixed`, `parseFloat`).
- The recursive `startTrading` loop itself and the SIGINT shutdown handler. Both belong to the process lifecycle; only the decision whether to continue is modelled.
- Interleaving of inbound requests with the join sequence and the trading loop. Each handler call is modelled as one atomic step.
- Floating point: prices and amounts are integers, so the exact-fill test `===` is exact.
- Ids are integers compared with `<`. In the source they are request-id strings compared in the same way; only the total order matters.
- Aliasing: `fulfillOrder` changes the `amount` of a resting order object in place, and `placeMarketOrder` changes the caller's order object. The model builds new order values instead, so effects through other references to those objects are not captured.
- Logging (`console.*`).
- Replication of the book across peers. Only one node's handler and startup are modelled.
- Validation of request payloads. The model assumes a "new:order" payload carries a price and an amount.
- Client.WaitForClientRegistration: the thrown error is modelled as the returned flag `isClientRegistered = false`, and `Startup` turns it into the end of the process.
