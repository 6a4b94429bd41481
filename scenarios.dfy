/**
 * Request sequences from the service's integration tests, run against a fresh
 * service whose backends never fail. Each is proved from the contracts alone.
 */
module Scenarios {
  import opened Wrappers
  import opened Models
  import opened Errors
  import opened Store
  import opened Cache
  import opened Notifier
  import opened Service
  import opened Controller
  import Text

  const NoCreateFaults := CreateFaults(None, None, None)
  const NoUpdateFaults := UpdateFaults(None, None, None, None)

  /** A new order is stored with status RECEIVED, reads back as created, and is cached and announced. */
  method CreateThenRead(clientId: ClientId, creationDate: CreationDate, now: int)
    returns (found: Option<Commande>, cached: Option<string>, history: seq<CommandeStatus>, messages: seq<Delivery>)
    requires creationDate <= now
    ensures found == Some(Commande(1, clientId, Received, creationDate))
    ensures cached == Some("RECEIVED")
    ensures history == [Received]
    ensures messages == [Delivery(DefaultQueueName, CommandeStatusMessage(clientId, 1, Received), true)]
  {
    var service := new CommandeService(DefaultQueueName);
    var created := service.CreateCommande(clientId, creationDate, now, NoCreateFaults);
    var read := service.store.FindById(1, None);
    found := read.value;
    var status := service.cache.GetStatus(1, None);
    cached := status.value;
    history := service.store.history[1];
    messages := service.notifier.sent;
  }

  /** Updates to PAID, PREPARING and SENT record the whole lifecycle in order. */
  method SuccessiveUpdates(clientId: ClientId, creationDate: CreationDate, now: int)
    returns (history: seq<CommandeStatus>, current: CommandeStatus)
    requires creationDate <= now
    ensures history == [Received, Paid, Preparing, Sent]
    ensures current == Sent
  {
    var service := new CommandeService(DefaultQueueName);
    var created := service.CreateCommande(clientId, creationDate, now, NoCreateFaults);
    var id := created.value.id;
    var r1 := service.UpdateStatus(id, Paid, NoUpdateFaults);
    var r2 := service.UpdateStatus(id, Preparing, NoUpdateFaults);
    var r3 := service.UpdateStatus(id, Sent, NoUpdateFaults);
    history := service.store.history[id];
    current := service.store.orders[id].status;
  }

  /** Going back from PAID to RECEIVED answers 400 and records nothing. */
  method BackwardTransition(clientId: ClientId, creationDate: CreationDate, now: int)
    returns (resp: Response, history: seq<CommandeStatus>)
    requires creationDate <= now
    ensures resp == Response(400, MessageBody(StatusInvalidMessage))
    ensures history == [Received, Paid]
  {
    var service := new CommandeService(DefaultQueueName);
    var controller := new CommandeController(service);
    var created := service.CreateCommande(clientId, creationDate, now, NoCreateFaults);
    var id := created.value.id;
    var paid := controller.UpdateStatus(UpdateRequest(IdText(Some(id)), Some("PAID")), NoUpdateFaults);
    resp := controller.UpdateStatus(UpdateRequest(IdText(Some(id)), Some("RECEIVED")), NoUpdateFaults);
    history := service.store.history[id];
  }

  /** Re-asserting the current status is accepted and records it a second time. */
  method SameStatusTwice(clientId: ClientId, creationDate: CreationDate, now: int)
    returns (resp: Response, history: seq<CommandeStatus>)
    requires creationDate <= now
    ensures resp == Response(204, NoBody)
    ensures history == [Received, Paid, Paid]
  {
    var service := new CommandeService(DefaultQueueName);
    var controller := new CommandeController(service);
    var created := service.CreateCommande(clientId, creationDate, now, NoCreateFaults);
    var id := created.value.id;
    var paid := controller.UpdateStatus(UpdateRequest(IdText(Some(id)), Some("PAID")), NoUpdateFaults);
    resp := controller.UpdateStatus(UpdateRequest(IdText(Some(id)), Some("PAID")), NoUpdateFaults);
    history := service.store.history[id];
  }

  /** An order that was never created answers 404 naming its id. */
  method UnknownOrder() returns (resp: Response)
    ensures resp == Response(404, MessageBody("Commande 99999 non trouvée"))
  {
    var service := new CommandeService(DefaultQueueName);
    var controller := new CommandeController(service);
    resp := controller.UpdateStatus(UpdateRequest(IdText(Some(99999)), Some("PAID")), NoUpdateFaults);
    assert Text.IntToString(99999) == "99999";
    assert Message(NotFound(99999)) == "Commande 99999 non trouvée";
  }

  /** A creation date one day ahead of `now` answers 400 and stores nothing. */
  method FutureCreationDate(clientId: ClientId, now: int) returns (resp: Response, orders: map<CommandeId, OrderRow>)
    requires clientId > 0
    ensures resp == Response(400, MessageBody(DateInFutureMessage))
    ensures orders == map[]
  {
    var service := new CommandeService(DefaultQueueName);
    var controller := new CommandeController(service);
    resp := controller.CreateCommande(CreateRequest(Some(clientId), Instant(now + 86400000)), now, NoCreateFaults);
    orders := service.store.orders;
  }
}
