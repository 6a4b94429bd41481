/**
 * `CommandeService`: creates orders and moves them through the workflow, writing
 * the relational store, then the cache, then the queue, and sorting whatever is
 * thrown on the way into the `CommandeError` family.
 */
module Service {
  import opened Wrappers
  import opened Models
  import opened Errors
  import opened Workflow
  import opened Store
  import opened Cache
  import opened Notifier

  const CreateOperation := "la création de la commande"
  const UpdateOperation := "la mise à jour du statut"

  /** The failures each backend raises during one `createCommande` call. */
  datatype CreateFaults = CreateFaults(store: Option<TxFault>, cache: Option<Fault>, queue: Option<PublishFault>)

  /** The failures each backend raises during one `updateStatus` call. */
  datatype UpdateFaults = UpdateFaults(find: Option<TxFault>, store: Option<TxFault>, cache: Option<Fault>, queue: Option<PublishFault>)

  /** The `catch` of `createCommande`: every `Error` becomes a `DaoError` holding it as cause. */
  function CreateFailure(t: Thrown): (r: Thrown)
    ensures IsErrorInstance(t) ==> r == Domain(DaoError(CreateOperation, t))
    ensures !IsErrorInstance(t) ==> r == t
  {
    if IsErrorInstance(t) then Domain(DaoError(CreateOperation, t)) else t
  }

  /**
   * The `catch` of `updateStatus`: `NotFound` and `StatusInvalid` pass through,
   * every other `Error` becomes a `DaoError` holding it as cause.
   */
  function UpdateFailure(t: Thrown): (r: Thrown)
    ensures t.Domain? && (t.error.NotFound? || t.error.StatusInvalid?) ==> r == t
    ensures t.Domain? && !(t.error.NotFound? || t.error.StatusInvalid?) ==> r == Domain(DaoError(UpdateOperation, t))
    ensures t.External? && t.fault.ErrorObject? ==> r == Domain(DaoError(UpdateOperation, t))
    ensures t.External? && t.fault.NonErrorValue? ==> r == t
  {
    if t.Domain? && (t.error.NotFound? || t.error.StatusInvalid?) then t
    else if IsErrorInstance(t) then Domain(DaoError(UpdateOperation, t))
    else t
  }

  class CommandeService {
    const store: BddCommandeDao
    const cache: RedisCommandeDao
    const notifier: RabbitmqCommandeDao

    ghost predicate Valid()
      reads store, notifier
    {
      store.Valid() && notifier.Valid()
    }

    /** The service builds its own three DAOs. */
    constructor (queueName: string)
      ensures Valid() && fresh(store) && fresh(cache) && fresh(notifier)
      ensures store.orders == map[] && store.history == map[] && store.nextId == 1 && store.held == 0
      ensures cache.entries == map[]
      ensures notifier.queueName == queueName && notifier.sent == []
    {
      store := new BddCommandeDao();
      cache := new RedisCommandeDao();
      notifier := new RabbitmqCommandeDao(queueName);
    }

    /**
     * `createCommande`: a creation date after `now` is refused before any backend
     * is touched; otherwise the order is stored, its status cached, a message
     * published, and the stored order returned. A failure at any of the three
     * steps stops the sequence and is rethrown through `CreateFailure`; writes
     * already made stay.
     */
    method CreateCommande(clientId: ClientId, creationDate: CreationDate, now: int, env: CreateFaults)
      returns (r: Result<Commande, Thrown>)
      requires Valid()
      modifies store, cache, notifier
      ensures Valid()
      ensures store.held == old(store.held)
      ensures creationDate > now ==>
        r == Failure(Domain(CreationDateInFuture)) && unchanged(store, cache, notifier)
      ensures creationDate <= now && env.store.Some? ==>
        && r == Failure(CreateFailure(External(env.store.value.error)))
        && store.orders == old(store.orders) && store.history == old(store.history)
        && unchanged(cache, notifier)
      ensures creationDate <= now && env.store.None? ==>
        var id := old(store.nextId);
        && id !in old(store.orders)
        && store.orders == old(store.orders)[id := OrderRow(clientId, Received, creationDate)]
        && store.history == old(store.history)[id := [Received]]
        && (env.cache.Some? ==>
              r == Failure(CreateFailure(External(env.cache.value))) && unchanged(cache, notifier))
        && (env.cache.None? ==> cache.entries == Stored(old(cache.entries), id, Received))
        && (env.cache.None? && env.queue.Some? ==>
              r == Failure(CreateFailure(External(env.queue.value.error))) && notifier.sent == old(notifier.sent))
        && (env.cache.None? && env.queue.None? ==>
              && notifier.sent == old(notifier.sent) + [Delivery(notifier.queueName, CommandeStatusMessage(clientId, id, Received), true)]
              && r == Success(Commande(id, clientId, Received, creationDate)))
    {
      if creationDate > now {
        return Failure(Domain(CreationDateInFuture));
      }
      // try
      var thrown: Option<Thrown> := None;
      var created := store.CreateCommande(clientId, creationDate, env.store);
      if created.Failure? {
        thrown := Some(External(created.error));
      } else {
        var commande := created.value;
        var cached := cache.SetStatus(commande.id, commande.status, env.cache);
        if cached.Fail? {
          thrown := Some(External(cached.error));
        } else {
          var published := notifier.PublishStatusChange(commande.id, commande.clientId, commande.status, env.queue);
          if published.Fail? {
            thrown := Some(External(published.error));
          } else {
            return Success(commande);
          }
        }
      }
      // catch
      r := Failure(CreateFailure(thrown.value));
    }

    /**
     * `updateStatus`: loads the order (absent: `NotFound`), checks the workflow
     * (backwards: `StatusInvalid`), then writes the store, the cache and the
     * queue in that order, and returns the loaded order with the new status. A
     * failure stops the sequence and is rethrown through `UpdateFailure`.
     */
    method UpdateStatus(commandeId: CommandeId, status: CommandeStatus, env: UpdateFaults)
      returns (r: Result<Commande, Thrown>)
      requires Valid()
      modifies store, cache, notifier
      ensures Valid()
      ensures store.held == old(store.held)
      ensures FindFails(env.find) ==>
        r == Failure(UpdateFailure(External(env.find.value.error))) && unchanged(store, cache, notifier)
      ensures !FindFails(env.find) && commandeId !in old(store.orders) ==>
        r == Failure(Domain(NotFound(commandeId))) && unchanged(store, cache, notifier)
      ensures !FindFails(env.find) && commandeId in old(store.orders) && !Allowed(old(store.orders[commandeId].status), status) ==>
        r == Failure(Domain(StatusInvalid)) && unchanged(store, cache, notifier)
      ensures !FindFails(env.find) && commandeId in old(store.orders) && Allowed(old(store.orders[commandeId].status), status) ==>
        var loaded := AsCommande(commandeId, old(store.orders[commandeId]));
        && (env.store.Some? ==>
              && r == Failure(UpdateFailure(External(env.store.value.error)))
              && store.orders == old(store.orders) && store.history == old(store.history)
              && unchanged(cache, notifier))
        && (env.store.None? ==>
              && store.orders == old(store.orders)[commandeId := old(store.orders[commandeId]).(status := status)]
              && store.history == old(store.history)[commandeId := old(store.history[commandeId]) + [status]])
        && (env.store.None? && env.cache.Some? ==>
              r == Failure(UpdateFailure(External(env.cache.value))) && unchanged(cache, notifier))
        && (env.store.None? && env.cache.None? ==> cache.entries == Stored(old(cache.entries), commandeId, status))
        && (env.store.None? && env.cache.None? && env.queue.Some? ==>
              r == Failure(UpdateFailure(External(env.queue.value.error))) && notifier.sent == old(notifier.sent))
        && (env.store.None? && env.cache.None? && env.queue.None? ==>
              && notifier.sent == old(notifier.sent) + [Delivery(notifier.queueName, CommandeStatusMessage(loaded.clientId, loaded.id, status), true)]
              && r == Success(loaded.(status := status)))
    {
      // try
      var thrown: Thrown;
      var found := store.FindById(commandeId, env.find);
      if found.Failure? {
        thrown := External(found.error);
      } else if found.value.None? {
        thrown := Domain(NotFound(commandeId));
      } else {
        var commande := found.value.value;
        var workflow := ProcessStatusWorkflow(commande, status);
        if workflow.Fail? {
          thrown := Domain(workflow.error);
        } else {
          var updated := store.UpdateStatus(commandeId, status, env.store);
          if updated.Fail? {
            thrown := External(updated.error);
          } else {
            var cached := cache.SetStatus(commandeId, status, env.cache);
            if cached.Fail? {
              thrown := External(cached.error);
            } else {
              var published := notifier.PublishStatusChange(commande.id, commande.clientId, status, env.queue);
              if published.Fail? {
                thrown := External(published.error);
              } else {
                return Success(commande.(status := status));
              }
            }
          }
        }
      }
      // catch
      r := Failure(UpdateFailure(thrown));
    }
  }
}
