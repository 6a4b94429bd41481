/**
 * The relational order store: the `orders` table, the `order_history` table and
 * the connection pool, as `BddCommandeDao`. Every operation takes a connection,
 * runs inside one transaction where it writes, and gives the connection back on
 * every exit path.
 */
module Store {
  import opened Wrappers
  import opened Models
  import opened Errors

  /** One row of `orders`, keyed by its id. */
  datatype OrderRow = OrderRow(clientId: ClientId, status: CommandeStatus, creationDate: CreationDate)

  /** The steps of an operation at which the database may throw. */
  datatype TxStep = Acquire | Begin | FirstStatement | SecondStatement | Commit

  /** A failure the database raises at one step of one call. */
  datatype TxFault = TxFault(step: TxStep, error: Fault)

  /** What the history insert throws when no order has that id (foreign key to `orders`). */
  const ForeignKeyViolation := ErrorObject("Cannot add or update a child row: a foreign key constraint fails")

  /** The error the database raises at `step`, if the injected fault is at that step. */
  function FaultAt(fault: Option<TxFault>, step: TxStep): (r: Option<Fault>)
    ensures r.Some? <==> fault.Some? && fault.value.step == step
    ensures r.Some? ==> r.value == fault.value.error
  {
    if fault.Some? && fault.value.step == step then Some(fault.value.error) else None
  }

  /** `findById` runs only the acquisition and the SELECT: a fault elsewhere never fires. */
  predicate FindFails(fault: Option<TxFault>) {
    fault.Some? && (fault.value.step == Acquire || fault.value.step == FirstStatement)
  }

  function Last(h: seq<CommandeStatus>): CommandeStatus
    requires |h| > 0
  {
    h[|h| - 1]
  }

  /** The order a row of `orders` describes. */
  function AsCommande(id: CommandeId, row: OrderRow): Commande {
    Commande(id, row.clientId, row.status, row.creationDate)
  }

  class BddCommandeDao {
    /** The `orders` table. */
    var orders: map<CommandeId, OrderRow>
    /** The `order_history` table: each order's statuses in insertion order. */
    var history: map<CommandeId, seq<CommandeStatus>>
    /** The table's AUTO_INCREMENT counter: the next `insertId`. */
    var nextId: CommandeId
    /** Connections taken from the pool and not yet released. */
    var held: nat

    /**
     * Every order has a history, its current status is the last one recorded,
     * and every id was handed out by the counter.
     */
    ghost predicate Valid()
      reads this
    {
      && history.Keys == orders.Keys
      && 0 < nextId
      && (forall id :: id in orders ==> 0 < id < nextId)
      && (forall id :: id in history ==> |history[id]| > 0 && Last(history[id]) == orders[id].status)
    }

    constructor ()
      ensures Valid()
      ensures orders == map[] && history == map[] && nextId == 1 && held == 0
    {
      orders, history, nextId, held := map[], map[], 1, 0;
    }

    /**
     * `createCommande`: inserts the order with status RECEIVED and its first
     * history row in one transaction and returns the new order; on any failure
     * rolls back and rethrows the database's error unchanged.
     */
    method CreateCommande(clientId: ClientId, creationDate: CreationDate, fault: Option<TxFault>)
      returns (r: Result<Commande, Fault>)
      requires Valid()
      modifies this
      ensures Valid()
      ensures held == old(held)
      ensures r.Success? <==> fault.None?
      ensures r.Success? ==>
        && r.value == Commande(old(nextId), clientId, Received, creationDate)
        && r.value.id !in old(orders)
        && orders == old(orders)[r.value.id := OrderRow(clientId, Received, creationDate)]
        && history == old(history)[r.value.id := [Received]]
        && nextId == old(nextId) + 1
      ensures r.Failure? ==> r.error == fault.value.error && orders == old(orders) && history == old(history)
      ensures nextId >= old(nextId)
    {
      // pool.getConnection() runs before the try: its failure needs no rollback or release.
      if FaultAt(fault, Acquire).Some? {
        return Failure(fault.value.error);
      }
      held := held + 1;
      // beginTransaction
      var savedOrders, savedHistory := orders, history;
      var id := nextId;
      var error := FaultAt(fault, Begin);
      if error.None? {
        error := FaultAt(fault, FirstStatement);
        if error.None? {
          nextId := nextId + 1;
          orders := orders[id := OrderRow(clientId, Received, creationDate)];
          error := FaultAt(fault, SecondStatement);
          if error.None? {
            history := history[id := [Received]];
            error := FaultAt(fault, Commit);
          }
        }
      }
      if error.Some? {
        // rollback; the AUTO_INCREMENT value already taken is not given back.
        orders, history := savedOrders, savedHistory;
        r := Failure(error.value);
      } else {
        r := Success(Commande(id, clientId, Received, creationDate));
      }
      // finally: release
      held := held - 1;
    }

    /** `findById`: the stored order with that id, or none; changes no row. */
    method FindById(id: CommandeId, fault: Option<TxFault>) returns (r: Result<Option<Commande>, Fault>)
      requires Valid()
      modifies this`held
      ensures held == old(held)
      ensures FindFails(fault) ==> r == Failure(fault.value.error)
      ensures !FindFails(fault) && id !in orders ==> r == Success(None)
      ensures !FindFails(fault) && id in orders ==> r == Success(Some(AsCommande(id, orders[id])))
    {
      if FaultAt(fault, Acquire).Some? {
        return Failure(fault.value.error);
      }
      held := held + 1;
      var error := FaultAt(fault, FirstStatement);
      if error.Some? {
        r := Failure(error.value);
      } else if id !in orders {
        r := Success(None);
      } else {
        r := Success(Some(AsCommande(id, orders[id])));
      }
      held := held - 1;
    }

    /**
     * `updateStatus`: sets the order's status and appends one history row in one
     * transaction; on any failure rolls back and rethrows. An absent id updates
     * no row and then fails the history insert's foreign key.
     */
    method UpdateStatus(id: CommandeId, status: CommandeStatus, fault: Option<TxFault>) returns (r: Outcome<Fault>)
      requires Valid()
      modifies this
      ensures Valid()
      ensures held == old(held) && nextId == old(nextId)
      ensures r.Pass? <==> fault.None? && id in old(orders)
      ensures r.Pass? ==>
        && orders == old(orders)[id := old(orders)[id].(status := status)]
        && history == old(history)[id := old(history)[id] + [status]]
      ensures r.Fail? ==> orders == old(orders) && history == old(history)
      ensures fault.Some? && fault.value.step != Commit ==> r == Fail(fault.value.error)
      ensures (fault.None? || fault.value.step == Commit) && id !in old(orders) ==> r == Fail(ForeignKeyViolation)
      ensures fault.Some? && fault.value.step == Commit && id in old(orders) ==> r == Fail(fault.value.error)
    {
      if FaultAt(fault, Acquire).Some? {
        return Fail(fault.value.error);
      }
      held := held + 1;
      var savedOrders, savedHistory := orders, history;
      var error := FaultAt(fault, Begin);
      if error.None? {
        // UPDATE orders SET status = ? WHERE id = ?
        error := FaultAt(fault, FirstStatement);
        if error.None? {
          if id in orders {
            orders := orders[id := orders[id].(status := status)];
          }
          // INSERT INTO order_history
          error := FaultAt(fault, SecondStatement);
          if error.None? {
            if id in history {
              history := history[id := history[id] + [status]];
              error := FaultAt(fault, Commit);
            } else {
              error := Some(ForeignKeyViolation);
            }
          }
        }
      }
      if error.Some? {
        orders, history := savedOrders, savedHistory;
        r := Fail(error.value);
      } else {
        r := Pass;
      }
      held := held - 1;
    }
  }
}
