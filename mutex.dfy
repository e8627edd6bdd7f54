/** The advisory lock store of src/mutex.js: the set of client ids that
    announced a join in progress to this node. */
module MutexStore {

  /** A client is named by its address, `host:port`. */
  type ClientId = string

  /** The set after `lockClient(id)`. */
  function Locked(clients: set<ClientId>, id: ClientId): (r: set<ClientId>)
    ensures id in r
    ensures forall c :: c != id ==> (c in r <==> c in clients)
  {
    clients + {id}
  }

  /** The set after `unlockClient(id)`. */
  function Unlocked(clients: set<ClientId>, id: ClientId): (r: set<ClientId>)
    ensures id !in r
    ensures forall c :: c != id ==> (c in r <==> c in clients)
  {
    clients - {id}
  }

  /** Locking twice is locking once. */
  lemma LockIdempotent(clients: set<ClientId>, id: ClientId)
    ensures Locked(Locked(clients, id), id) == Locked(clients, id)
  {
  }

  /** Unlocking twice is unlocking once, and unlocking an absent id changes
      nothing. */
  lemma UnlockIdempotent(clients: set<ClientId>, id: ClientId)
    ensures Unlocked(Unlocked(clients, id), id) == Unlocked(clients, id)
    ensures id !in clients ==> Unlocked(clients, id) == clients
  {
  }

  /** A lock followed by an unlock of an id that was not locked restores
      the set. */
  lemma LockUnlockRestores(clients: set<ClientId>, id: ClientId)
    requires id !in clients
    ensures Unlocked(Locked(clients, id), id) == clients
  {
  }

  class Mutex {
    var lockedClients: set<ClientId>

    constructor ()
      ensures lockedClients == {}
    {
      lockedClients := {};
    }

    /** `lockClient` */
    method LockClient(clientId: ClientId)
      modifies this
      ensures lockedClients == Locked(old(lockedClients), clientId)
    {
      lockedClients := lockedClients + {clientId};
    }

    /** `unlockClient` */
    method UnlockClient(clientId: ClientId)
      modifies this
      ensures lockedClients == Unlocked(old(lockedClients), clientId)
    {
      lockedClients := lockedClients - {clientId};
    }

    /** `isAnyClientLocked` */
    function IsAnyClientLocked(): (r: bool)
      reads this
      ensures r <==> exists c :: c in lockedClients
    {
      |lockedClients| > 0
    }
  }
}
