/** The change notifier: `RabbitmqCommandeDao` publishing to one durable queue. */
module Notifier {
  import opened Wrappers
  import opened Models
  import opened Errors

  /** The queue name when the environment does not override it. */
  const DefaultQueueName := "commande.status.changed"

  /** `CommandeStatusMessage`: the body of a status-change notification. */
  datatype CommandeStatusMessage = CommandeStatusMessage(clientId: ClientId, commandeId: CommandeId, status: CommandeStatus)

  /** A message handed to `sendToQueue`, with the queue it went to and its delivery mode. */
  datatype Delivery = Delivery(queue: string, message: CommandeStatusMessage, persistent: bool)

  /** The steps of `publishStatusChange` at which the broker client may throw. */
  datatype PublishStep = GetChannel | AssertQueue | SendToQueue

  datatype PublishFault = PublishFault(step: PublishStep, error: Fault)

  class RabbitmqCommandeDao {
    /** `QUEUE_NAME`, read once from the configuration. */
    const queueName: string
    /** Queues asserted durable on the broker. */
    var durable: set<string>
    /** Every message sent, oldest first. */
    var sent: seq<Delivery>

    /** Everything sent went, persistent, to the configured queue after it was asserted durable. */
    ghost predicate Valid()
      reads this
    {
      forall k :: 0 <= k < |sent| ==> sent[k].queue == queueName && sent[k].persistent && sent[k].queue in durable
    }

    constructor (queueName: string)
      ensures Valid()
      ensures this.queueName == queueName && durable == {} && sent == []
    {
      this.queueName := queueName;
      durable, sent := {}, [];
    }

    /**
     * `publishStatusChange`: asserts the queue durable, then sends one persistent
     * message `{clientId, commandeId, status}`; a client error is rethrown and
     * nothing is sent.
     */
    method PublishStatusChange(commandeId: CommandeId, clientId: ClientId, status: CommandeStatus, fault: Option<PublishFault>)
      returns (r: Outcome<Fault>)
      requires Valid()
      modifies this
      ensures Valid()
      ensures r.Pass? <==> fault.None?
      ensures fault.None? ==>
        && sent == old(sent) + [Delivery(queueName, CommandeStatusMessage(clientId, commandeId, status), true)]
        && durable == old(durable) + {queueName}
      ensures fault.Some? ==> r == Fail(fault.value.error) && sent == old(sent)
      ensures fault.Some? ==> durable == if fault.value.step == SendToQueue then old(durable) + {queueName} else old(durable)
    {
      if fault.Some? && fault.value.step == GetChannel {
        return Fail(fault.value.error);
      }
      if fault.Some? && fault.value.step == AssertQueue {
        return Fail(fault.value.error);
      }
      durable := durable + {queueName};
      var message := CommandeStatusMessage(clientId := clientId, commandeId := commandeId, status := status);
      if fault.Some? {
        return Fail(fault.value.error);
      }
      sent := sent + [Delivery(queueName, message, true)];
      r := Pass;
    }
  }
}
