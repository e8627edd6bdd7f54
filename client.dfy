/** The trading node of src/client.js: the handler of inbound requests, the
    join sequence a node runs at startup, and the lock guard in front of
    order submission. Every call into the directory or to peers is replaced
    by the outcome it ended with. */
module Client {
  import opened BookSpec
  import opened OrderBookEngine
  import opened MutexStore

  datatype Option<T> = None | Some(value: T)

  /** How a lookup, broadcast or request to peers ended: with data, with the
      directory reporting no provider (`ERR_GRAPE_LOOKUP_EMPTY`), or with any
      other error (a timeout, a failed reply). */
  datatype Outcome<T> = Ok(data: T) | LookupEmpty | OtherErr

  // ---------------------------------------------------------------------
  // Inbound requests

  /** An inbound request, by key: "mutex:lock", "mutex:unlock", "book:sync",
      "new:order", or any other key. */
  datatype Request =
    | MutexLock(client: ClientId)
    | MutexUnlock(client: ClientId)
    | BookSync
    | NewOrder(price: int, amount: int)
    | Unknown(key: string)

  datatype Reply =
    | Success
    | OrderBookReply(orderBook: seq<Order>)
    | OrderReply(success: bool, isFulfilled: bool, nbOrders: nat)

  /** What the handler reads and writes: this node's book and lock set. */
  datatype Node = Node(book: Book, locks: set<ClientId>)

  datatype Handled = Handled(node: Node, reply: Option<Reply>)

  /** The request handler as a state transition. `rid` is the id the
      transport gives the request; a new order is placed under it. */
  function Dispatch(n: Node, rid: int, req: Request): (r: Handled)
    ensures !req.NewOrder? ==> r.node.book == n.book
    ensures !req.MutexLock? && !req.MutexUnlock? ==> r.node.locks == n.locks
    ensures req.MutexLock? ==> r.node.locks == Locked(n.locks, req.client) && r.reply == Some(Success)
    ensures req.MutexUnlock? ==> r.node.locks == Unlocked(n.locks, req.client) && r.reply == Some(Success)
    ensures req.BookSync? ==> r.reply == Some(OrderBookReply(Snapshot(n.book)))
    ensures req.NewOrder? ==>
              r.node.book == Place(n.book, Order(rid, req.price, req.amount)).book &&
              r.reply == Some(OrderReply(true, Place(n.book, Order(rid, req.price, req.amount)).isFulfilled,
                                         Size(r.node.book)))
    ensures req.Unknown? ==> r == Handled(n, None)
  {
    match req
    case MutexLock(c) => Handled(n.(locks := Locked(n.locks, c)), Some(Success))
    case MutexUnlock(c) => Handled(n.(locks := Unlocked(n.locks, c)), Some(Success))
    case BookSync => Handled(n, Some(OrderBookReply(Snapshot(n.book))))
    case NewOrder(price, amount) =>
      var order := Order(rid, price, amount);
      var p := Place(n.book, order);
      Handled(n.(book := p.book), Some(OrderReply(true, p.isFulfilled, Size(p.book))))
    case Unknown(_) => Handled(n, None)
  }

  /** No request breaks the order of either side of the book. */
  lemma DispatchKeepsBookValid(n: Node, rid: int, req: Request)
    requires ValidBook(n.book)
    ensures ValidBook(Dispatch(n, rid, req).node.book)
  {
    if req.NewOrder? {
      PlaceProperties(n.book, Order(rid, req.price, req.amount));
    }
  }

  /** `service.on("request")`, acting on this node's order book and mutex. */
  method HandleRequest(orderBook: OrderBook, mutex: Mutex, rid: int, req: Request) returns (reply: Option<Reply>)
    requires orderBook.Valid()
    modifies orderBook, mutex
    ensures orderBook.Valid()
    ensures Handled(Node(orderBook.Model(), mutex.lockedClients), reply)
            == Dispatch(Node(old(orderBook.Model()), old(mutex.lockedClients)), rid, req)
  {
    match req
    case MutexLock(c) =>
      mutex.LockClient(c);
      reply := Some(Success);
    case MutexUnlock(c) =>
      mutex.UnlockClient(c);
      reply := Some(Success);
    case BookSync =>
      reply := Some(OrderBookReply(orderBook.GetAllOrders()));
    case NewOrder(price, amount) =>
      var isFulfilled := orderBook.PlaceMarketOrder(Order(rid, price, amount));
      reply := Some(OrderReply(true, isFulfilled, orderBook.GetOrderBookLength()));
    case Unknown(_) =>
      reply := None;
  }

  // ---------------------------------------------------------------------
  // The join sequence

  datatype Settled = Resolved | Rejected

  /** `requestMutexLock`: the broadcast of "mutex:lock" settles when peers
      replied or when there are none (the first node); any other error
      rejects. */
  function RequestMutexLock(o: Outcome<()>): (s: Settled)
    ensures s == Rejected <==> o == OtherErr
  {
    match o
    case Ok(_) => Resolved
    case LookupEmpty => Resolved
    case OtherErr => Rejected
  }

  /** `releaseMutexLock`: an error other than an empty lookup is passed on
      to the caller, so it is fatal at startup. */
  function ReleaseMutexLock(o: Outcome<()>): (s: Settled)
    ensures s == Resolved <==> o.Ok? || o.LookupEmpty?
  {
    if o.Ok? then Resolved
    else if o.LookupEmpty? then Resolved
    else Rejected
  }

  /** Releasing the lock is no more forgiving than taking it. */
  lemma ReleaseAsStrictAsRequest(o: Outcome<()>)
    ensures ReleaseMutexLock(o) == RequestMutexLock(o)
  {
  }

  const MaxTries: nat := 100

  /** A lookup of "new:order" that lists this client. */
  predicate Sees(o: Outcome<seq<ClientId>>, clientId: ClientId)
  {
    o.Ok? && clientId in o.data
  }

  /** `waitForClientRegistration`: look "new:order" up until this client is
      listed, at most `MaxTries` times; try `t` ends as `lookup(t)` says. A
      failed lookup uses up a try and is not fatal. */
  method WaitForClientRegistration(clientId: ClientId, lookup: nat -> Outcome<seq<ClientId>>)
    returns (isClientRegistered: bool, tries: nat)
    ensures 0 < tries <= MaxTries
    ensures forall t :: 0 <= t < tries - 1 ==> !Sees(lookup(t), clientId)
    ensures isClientRegistered <==> Sees(lookup(tries - 1), clientId)
    ensures !isClientRegistered ==> tries == MaxTries
    ensures isClientRegistered <==> exists t :: 0 <= t < MaxTries && Sees(lookup(t), clientId)
  {
    isClientRegistered := false;
    tries := 0;
    while !isClientRegistered && tries < MaxTries
      invariant tries <= MaxTries
      invariant forall t :: 0 <= t < tries ==> (t < tries - 1 || !isClientRegistered ==> !Sees(lookup(t), clientId))
      invariant isClientRegistered ==> 0 < tries && Sees(lookup(tries - 1), clientId)
    {
      var outcome := lookup(tries);
      if outcome.Ok? {
        isClientRegistered := clientId in outcome.data;
      }
      tries := tries + 1;
    }
  }

  /** `syncOrderBook`: no peer serving "book:sync" leaves the book as it
      is; a reply is added with `init`, on top of what the book holds; any
      other error rejects. */
  method SyncOrderBook(orderBook: OrderBook, o: Outcome<seq<Order>>) returns (s: Settled)
    requires orderBook.Valid()
    modifies orderBook
    ensures orderBook.Valid()
    ensures s == Rejected <==> o == OtherErr
    ensures orderBook.Model() == if o.Ok? then Seeded(old(orderBook.Model()), o.data) else old(orderBook.Model())
  {
    match o
    case LookupEmpty =>
      s := Resolved;
    case OtherErr =>
      s := Rejected;
    case Ok(data) =>
      orderBook.Init(data);
      s := Resolved;
  }

  /** The outcomes the join sequence meets, one per networked step. */
  datatype Network = Network(
    lockOutcome: Outcome<()>,
    lookup: nat -> Outcome<seq<ClientId>>,
    syncOutcome: Outcome<seq<Order>>,
    releaseOutcome: Outcome<()>)

  datatype Step =
    | RequestLock
    | Announce(service: string)
    | AwaitRegistration
    | SyncBook
    | ReleaseLock
    | StartTrading

  /** Every step of a startup that succeeds, in order. */
  function JoinSteps(): seq<Step>
  {
    [RequestLock, Announce("new:order"), Announce("mutex:lock"), Announce("mutex:unlock"),
     AwaitRegistration, SyncBook, ReleaseLock, Announce("book:sync"), StartTrading]
  }

  /** Where a startup ends: the steps attempted, whether it reached the
      trading loop (otherwise the process exits), and the book. */
  datatype Boot = Boot(steps: seq<Step>, trading: bool, book: Book)

  ghost predicate EverSees(clientId: ClientId, lookup: nat -> Outcome<seq<ClientId>>)
  {
    exists t :: 0 <= t < MaxTries && Sees(lookup(t), clientId)
  }

  /** The startup sequence: each step runs only if every earlier one
      settled, and the first that fails ends the process. */
  ghost function Startup(b: Book, clientId: ClientId, net: Network): (r: Boot)
    ensures r.steps <= JoinSteps()
    ensures r.trading <==> r.steps == JoinSteps()
    ensures r.trading <==>
              RequestMutexLock(net.lockOutcome) == Resolved && EverSees(clientId, net.lookup) &&
              !net.syncOutcome.OtherErr? && ReleaseMutexLock(net.releaseOutcome) == Resolved
    ensures r.book == if |r.steps| > 5 && net.syncOutcome.Ok? then Seeded(b, net.syncOutcome.data) else b
  {
    var steps := JoinSteps();
    if RequestMutexLock(net.lockOutcome) == Rejected then Boot(steps[..1], false, b)
    else if !EverSees(clientId, net.lookup) then Boot(steps[..5], false, b)
    else if net.syncOutcome.OtherErr? then Boot(steps[..6], false, b)
    else
      var synced := if net.syncOutcome.Ok? then Seeded(b, net.syncOutcome.data) else b;
      if ReleaseMutexLock(net.releaseOutcome) == Rejected then Boot(steps[..7], false, synced)
      else Boot(steps, true, synced)
  }

  /** The first node of a network: no peer answers the lock or the sync,
      the release reaches at most the node itself, and it sees itself
      registered. It reaches the trading loop with its book as it was:
      empty after construction. */
  lemma FirstNodeStarts(b: Book, clientId: ClientId, net: Network)
    requires net.lockOutcome == LookupEmpty && net.syncOutcome == LookupEmpty
    requires !net.releaseOutcome.OtherErr?
    requires EverSees(clientId, net.lookup)
    ensures Startup(b, clientId, net) == Boot(JoinSteps(), true, b)
  {
  }

  /** The startup of src/client.js, in order: lock the peers, announce
      three services, wait to be listed, sync the book, release the peers,
      announce "book:sync", trade. */
  method Start(orderBook: OrderBook, clientId: ClientId, net: Network) returns (steps: seq<Step>, trading: bool)
    requires orderBook.Valid()
    modifies orderBook
    ensures orderBook.Valid()
    ensures Boot(steps, trading, orderBook.Model()) == Startup(old(orderBook.Model()), clientId, net)
  {
    steps := [RequestLock];
    trading := false;
    if RequestMutexLock(net.lockOutcome) == Rejected {
      return;
    }
    steps := steps + [Announce("new:order"), Announce("mutex:lock"), Announce("mutex:unlock")];
    steps := steps + [AwaitRegistration];
    var isClientRegistered, _ := WaitForClientRegistration(clientId, net.lookup);
    if !isClientRegistered {
      assert steps == JoinSteps()[..5];
      return;
    }
    steps := steps + [SyncBook];
    var synced := SyncOrderBook(orderBook, net.syncOutcome);
    if synced == Rejected {
      assert steps == JoinSteps()[..6];
      return;
    }
    steps := steps + [ReleaseLock];
    if ReleaseMutexLock(net.releaseOutcome) == Rejected {
      assert steps == JoinSteps()[..7];
      return;
    }
    steps := steps + [Announce("book:sync"), StartTrading];
    trading := true;
  }

  // ---------------------------------------------------------------------
  // Trading

  /** `submitNewOrder` holds its broadcast of "new:order" back while any
      client holds a lock on this node; once none does, it broadcasts the
      order's price and amount. */
  function SubmitNewOrder(mutex: Mutex, price: int, amount: int): (r: Option<Request>)
    reads mutex
    ensures r.Some? <==> mutex.lockedClients == {}
    ensures r.Some? ==> r.value == NewOrder(price, amount)
  {
    if mutex.IsAnyClientLocked() then None else Some(NewOrder(price, amount))
  }

  /** `startTrading` schedules its next round only when the broadcast of
      the order settled; an error, an empty lookup included, is caught
      outside the recursive call and ends the loop. */
  function TradingContinues(broadcast: Outcome<()>): (r: bool)
    ensures r <==> broadcast.Ok?
  {
    match broadcast
    case Ok(_) => true
    case LookupEmpty => false
    case OtherErr => false
  }
}
