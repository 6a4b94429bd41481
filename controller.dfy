/**
 * `CommandeController`: checks the request, calls the service, and turns its
 * result or what it throws into a status code and a body.
 */
module Controller {
  import opened Wrappers
  import opened Models
  import opened Errors
  import opened Workflow
  import opened Store
  import opened Cache
  import opened Notifier
  import opened Service

  /** A JSON response body. */
  datatype Body = NoBody | MessageBody(message: string) | IdBody(id: CommandeId) | MediaTypeBody(error: string, message: string)

  datatype Response = Response(code: int, body: Body)

  const MissingClientIdMessage := "Aucun clientId n'est fourni"
  const InvalidClientIdMessage := "Le clientId fourni est invalide"
  const MissingDateMessage := "Aucune date n'est fournie"
  const InvalidDateMessage := "La date fournie invalide"
  const MissingStatusMessage := "Aucun statut n'est fourni"
  const InvalidStatusMessage := "Le statut fourni est invalide"
  const InvalidIdMessage := "L'identifiant de commande est invalide"
  const DaoFailureMessage := "Une erreur est survenue lors du " + "traitement de la commande"
  const UnexpectedFailureMessage := "Une erreur inattendue est survenue"

  /** `generateError`: a status code with a `{message}` body. */
  function ErrorResponse(code: int, message: string): Response {
    Response(code, MessageBody(message))
  }

  /** The `date` field of a create request: falsy, not a date, or the instant it denotes. */
  datatype DateField = NoDate | Unparseable | Instant(millis: CreationDate)

  /** The body of `POST /commandes`: `clientId` absent or `null` is `None`. */
  datatype CreateRequest = CreateRequest(clientId: Option<ClientId>, date: DateField)

  /** The `:id` path parameter: empty, or text together with what `parseInt(id, 10)` gives. */
  datatype IdParam = EmptyId | IdText(parsed: Option<int>)

  /** `PATCH /commandes/:id/status`: the id parameter and the body's `status` (absent or `null` is `None`). */
  datatype UpdateRequest = UpdateRequest(id: IdParam, status: Option<string>)

  /**
   * The checks of `createCommande`, in order: clientId present, clientId
   * positive, date present, date parseable. The first that fails answers 400
   * with its own message; when all pass, the service gets the client id and
   * the instant.
   */
  function ValidateCreate(req: CreateRequest): (r: Result<(ClientId, CreationDate), Response>)
    ensures r.Success? <==> req.clientId.Some? && req.clientId.value > 0 && req.date.Instant?
    ensures r.Success? ==> r.value == (req.clientId.value, req.date.millis)
    ensures req.clientId.None? ==> r == Failure(ErrorResponse(400, MissingClientIdMessage))
    ensures req.clientId.Some? && req.clientId.value <= 0 ==> r == Failure(ErrorResponse(400, InvalidClientIdMessage))
    ensures req.clientId.Some? && req.clientId.value > 0 && req.date.NoDate? ==> r == Failure(ErrorResponse(400, MissingDateMessage))
    ensures req.clientId.Some? && req.clientId.value > 0 && req.date.Unparseable? ==> r == Failure(ErrorResponse(400, InvalidDateMessage))
  {
    if req.clientId.None? then Failure(ErrorResponse(400, MissingClientIdMessage))
    else if req.clientId.value <= 0 then Failure(ErrorResponse(400, InvalidClientIdMessage))
    else if req.date.NoDate? then Failure(ErrorResponse(400, MissingDateMessage))
    else if req.date.Unparseable? then Failure(ErrorResponse(400, InvalidDateMessage))
    else Success((req.clientId.value, req.date.millis))
  }

  /**
   * The checks of `updateStatus`, in order: the id (present, a number,
   * positive) before the status (present, one of the four values). The first
   * that fails answers 400 with its own message.
   */
  function ValidateUpdate(req: UpdateRequest): (r: Result<(CommandeId, CommandeStatus), Response>)
    ensures r.Success? <==>
      && req.id.IdText? && req.id.parsed.Some? && req.id.parsed.value > 0
      && req.status.Some? && ParseStatus(req.status.value).Some?
    ensures r.Success? ==> r.value.0 == req.id.parsed.value && StatusName(r.value.1) == req.status.value
    ensures !(req.id.IdText? && req.id.parsed.Some? && req.id.parsed.value > 0) ==>
      r == Failure(ErrorResponse(400, InvalidIdMessage))
    ensures req.id.IdText? && req.id.parsed.Some? && req.id.parsed.value > 0 && req.status.None? ==>
      r == Failure(ErrorResponse(400, MissingStatusMessage))
    ensures req.id.IdText? && req.id.parsed.Some? && req.id.parsed.value > 0 && req.status.Some? && ParseStatus(req.status.value).None? ==>
      r == Failure(ErrorResponse(400, InvalidStatusMessage))
  {
    if req.id.EmptyId? then Failure(ErrorResponse(400, InvalidIdMessage))
    else if req.id.parsed.None? || req.id.parsed.value <= 0 then Failure(ErrorResponse(400, InvalidIdMessage))
    else if req.status.None? then Failure(ErrorResponse(400, MissingStatusMessage))
    else
      match ParseStatus(req.status.value)
      case None => Failure(ErrorResponse(400, InvalidStatusMessage))
      case Some(status) => Success((req.id.parsed.value, status))
  }

  /**
   * `handleError`: the service's own validation errors answer 400 or 404 with
   * their message; a `DaoError` answers 500 with a fixed message that says
   * nothing of its cause; anything else answers 500 with another fixed message.
   */
  function HandleError(t: Thrown): (r: Response)
    ensures r.code == 400 <==> t.Domain? && (t.error.CreationDateInFuture? || t.error.StatusInvalid?)
    ensures r.code == 404 <==> t.Domain? && t.error.NotFound?
    ensures r.code == 500 <==> !t.Domain? || t.error.DaoError?
    ensures r.code != 500 ==> r.body == MessageBody(Message(t.error))
    ensures t.Domain? && t.error.DaoError? ==> r == ErrorResponse(500, DaoFailureMessage)
    ensures t.External? ==> r == ErrorResponse(500, UnexpectedFailureMessage)
  {
    match t
    case Domain(CreationDateInFuture) => ErrorResponse(400, Message(t.error))
    case Domain(StatusInvalid) => ErrorResponse(400, Message(t.error))
    case Domain(NotFound(_)) => ErrorResponse(404, Message(t.error))
    case Domain(DaoError(_, _)) => ErrorResponse(500, DaoFailureMessage)
    case External(_) => ErrorResponse(500, UnexpectedFailureMessage)
  }

  /** No backend failure reaches the client: it always answers 500 with a fixed message. */
  lemma BackendFailureIsHidden(f: Fault)
    ensures HandleError(CreateFailure(External(f))).code == 500
    ensures HandleError(UpdateFailure(External(f))).code == 500
    ensures HandleError(CreateFailure(External(f))).body in {MessageBody(DaoFailureMessage), MessageBody(UnexpectedFailureMessage)}
    ensures HandleError(UpdateFailure(External(f))).body in {MessageBody(DaoFailureMessage), MessageBody(UnexpectedFailureMessage)}
  {
  }

  class CommandeController {
    const service: CommandeService

    constructor (service: CommandeService)
      ensures this.service == service
    {
      this.service := service;
    }

    /**
     * `POST /commandes`: a request the checks refuse, or a creation date after
     * `now`, answers 400 and changes nothing; otherwise 201 with the new id when
     * every backend succeeds, and 500 when one of them fails.
     */
    method CreateCommande(req: CreateRequest, now: int, env: CreateFaults) returns (resp: Response)
      requires service.Valid()
      modifies service.store, service.cache, service.notifier
      ensures service.Valid()
      ensures ValidateCreate(req).Failure? ==>
        resp == ValidateCreate(req).error && unchanged(service.store, service.cache, service.notifier)
      ensures ValidateCreate(req).Success? && req.date.millis > now ==>
        resp == ErrorResponse(400, DateInFutureMessage) && unchanged(service.store, service.cache, service.notifier)
      ensures ValidateCreate(req).Success? && req.date.millis <= now ==>
        if env.store.None? && env.cache.None? && env.queue.None?
        then resp == Response(201, IdBody(old(service.store.nextId)))
        else resp.code == 500
      ensures ValidateCreate(req).Success? && req.date.millis <= now ==>
        if env.store.None?
        then
          && service.store.orders == old(service.store.orders)[old(service.store.nextId) := OrderRow(req.clientId.value, Received, req.date.millis)]
          && service.store.history == old(service.store.history)[old(service.store.nextId) := [Received]]
        else service.store.orders == old(service.store.orders) && service.store.history == old(service.store.history)
    {
      var checked := ValidateCreate(req);
      if checked.Failure? {
        return checked.error;
      }
      var (clientId, creationDate) := checked.value;
      var result := service.CreateCommande(clientId, creationDate, now, env);
      match result
      case Success(commande) =>
        resp := Response(201, IdBody(commande.id));
      case Failure(thrown) =>
        resp := HandleError(thrown);
    }

    /**
     * `PATCH /commandes/:id/status`: a request the checks refuse answers 400 and
     * changes nothing; an unknown id answers 404 and a backwards transition 400,
     * both without writing; otherwise 204 when every backend succeeds and 500
     * when one of them fails.
     */
    method UpdateStatus(req: UpdateRequest, env: UpdateFaults) returns (resp: Response)
      requires service.Valid()
      modifies service.store, service.cache, service.notifier
      ensures service.Valid()
      ensures ValidateUpdate(req).Failure? ==>
        resp == ValidateUpdate(req).error && unchanged(service.store, service.cache, service.notifier)
      ensures ValidateUpdate(req).Success? ==>
        var (id, status) := ValidateUpdate(req).value;
        if FindFails(env.find) then resp.code == 500
        else if id !in old(service.store.orders) then resp == ErrorResponse(404, Message(NotFound(id)))
        else if !Allowed(old(service.store.orders[id].status), status) then resp == ErrorResponse(400, StatusInvalidMessage)
        else if env.store.None? && env.cache.None? && env.queue.None? then resp == Response(204, NoBody)
        else resp.code == 500
      ensures ValidateUpdate(req).Success? ==>
        var (id, status) := ValidateUpdate(req).value;
        if FindFails(env.find) || id !in old(service.store.orders) || !Allowed(old(service.store.orders[id].status), status)
        then unchanged(service.store, service.cache, service.notifier)
        else if env.store.Some? then service.store.orders == old(service.store.orders) && service.store.history == old(service.store.history)
        else
          && service.store.orders == old(service.store.orders)[id := old(service.store.orders[id]).(status := status)]
          && service.store.history == old(service.store.history)[id := old(service.store.history[id]) + [status]]
    {
      var checked := ValidateUpdate(req);
      if checked.Failure? {
        return checked.error;
      }
      var (commandeId, status) := checked.value;
      var result := service.UpdateStatus(commandeId, status, env);
      match result
      case Success(_) =>
        resp := Response(204, NoBody);
      case Failure(thrown) =>
        resp := HandleError(thrown);
    }
  }
}
