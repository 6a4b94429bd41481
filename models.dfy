/** The order record and its status enumeration. */
module Models {
  import opened Wrappers

  /** Identifiers and the creation instant are integers (milliseconds for the date). */
  type CommandeId = int
  type ClientId = int
  type CreationDate = int

  /** The four statuses an order can be in. */
  datatype CommandeStatus = Received | Paid | Preparing | Sent

  /** The enum's string value, which is also its member name. */
  function StatusName(s: CommandeStatus): string {
    match s
    case Received => "RECEIVED"
    case Paid => "PAID"
    case Preparing => "PREPARING"
    case Sent => "SENT"
  }

  /** The status whose string value is `t`, if any (`Object.values(CommandeStatus).includes`). */
  function ParseStatus(t: string): (r: Option<CommandeStatus>)
    ensures r.Some? ==> StatusName(r.value) == t
    ensures r.None? ==> forall s :: StatusName(s) != t
  {
    if t == "RECEIVED" then Some(Received)
    else if t == "PAID" then Some(Paid)
    else if t == "PREPARING" then Some(Preparing)
    else if t == "SENT" then Some(Sent)
    else None
  }

  /** status -> string -> status is the identity. */
  lemma ParseStatusName(s: CommandeStatus)
    ensures ParseStatus(StatusName(s)) == Some(s)
  {
  }

  /** An order as the service passes it around. */
  datatype Commande = Commande(id: CommandeId, clientId: ClientId, status: CommandeStatus, creationDate: CreationDate)
}
