/** The `CommandeError` family and the values a backend can throw. */
module Errors {
  import opened Models
  import Text

  /** What a store, cache or queue client throws: an `Error` object, or any other value. */
  datatype Fault = ErrorObject(message: string) | NonErrorValue(description: string)

  /** The four subclasses of `CommandeError`. */
  datatype CommandeError =
    | NotFound(commandeId: CommandeId)
    | CreationDateInFuture
    | StatusInvalid
    | DaoError(operation: string, cause: Thrown)

  /** Anything thrown inside the service: one of its own errors, or a backend's value. */
  datatype Thrown = Domain(error: CommandeError) | External(fault: Fault)

  /** `value instanceof Error`: every `CommandeError` is one, a backend's value may not be. */
  predicate IsErrorInstance(t: Thrown) {
    t.Domain? || t.fault.ErrorObject?
  }

  const NotFoundPrefix := "Commande "
  const NotFoundSuffix := " non trouvée"
  const DateInFutureMessage := "La date de création est dans le futur"
  const StatusInvalidMessage := "Le status voulu pour la " + "commande est invalide"
  const DaoErrorPrefix := "Erreur lors de "

  /** The `message` each constructor sets. */
  function Message(e: CommandeError): string {
    match e
    case NotFound(id) => NotFoundPrefix + Text.IntToString(id) + NotFoundSuffix
    case CreationDateInFuture => DateInFutureMessage
    case StatusInvalid => StatusInvalidMessage
    case DaoError(operation, _) => DaoErrorPrefix + operation
  }

  /** The `name` each constructor sets. */
  function Name(e: CommandeError): string {
    match e
    case NotFound(_) => "CommandeNotFoundError"
    case CreationDateInFuture => "CommandeCreationDateInFutureError"
    case StatusInvalid => "CommandeStatusInvalid"
    case DaoError(_, _) => "CommandeDaoError"
  }

  /** The id a not-found message names, read back from the message. */
  function NotFoundId(message: string): Option<CommandeId> {
    match Text.Between(NotFoundPrefix, NotFoundSuffix, message)
    case Some(digits) => Text.ParseInt(digits)
    case None => None
  }

  import opened Wrappers

  lemma NotFoundIdOfMessage(id: CommandeId)
    ensures NotFoundId(Message(NotFound(id))) == Some(id)
  {
    Text.BetweenOfConcat(NotFoundPrefix, Text.IntToString(id), NotFoundSuffix);
    Text.ParseIntOfIntToString(id);
  }

  /**
   * A message identifies the error that carries it, except that a `DaoError`'s
   * message names only the operation and not the cause.
   */
  lemma {:induction false} MessageIdentifiesError(e1: CommandeError, e2: CommandeError)
    requires Message(e1) == Message(e2)
    ensures e1 == e2 || (e1.DaoError? && e2.DaoError? && e1.operation == e2.operation)
  {
    var m := Message(e1);
    match e1
    case NotFound(a) =>
      assert m[0] == 'C';
      if e2.NotFound? {
        NotFoundIdOfMessage(a);
        NotFoundIdOfMessage(e2.commandeId);
      }
    case CreationDateInFuture =>
      assert m == DateInFutureMessage;
      assert m[0] == 'L' && m[1] == 'a' && |m| == 37;
    case StatusInvalid =>
      assert m == StatusInvalidMessage;
      assert m[0] == 'L' && m[1] == 'e' && |m| == 45;
    case DaoError(op, _) =>
      assert m[0] == 'E';
      if e2.DaoError? {
        assert m == DaoErrorPrefix + op == DaoErrorPrefix + e2.operation;
        assert op == m[|DaoErrorPrefix|..] == e2.operation;
      }
  }

  /** Every error has its own `name`. */
  lemma NameIdentifiesKind(e1: CommandeError, e2: CommandeError)
    requires Name(e1) == Name(e2)
    ensures e1.NotFound? == e2.NotFound? && e1.CreationDateInFuture? == e2.CreationDateInFuture?
    ensures e1.StatusInvalid? == e2.StatusInvalid? && e1.DaoError? == e2.DaoError?
  {
  }
}
