/**
 * The status workflow of `CommandeService`: a fixed array of statuses and a
 * transition rule that compares positions in it.
 */
module Workflow {
  import opened Wrappers
  import opened Models
  import opened Errors

  /** `statusWorkflow`: the statuses in workflow order. */
  const StatusWorkflow: seq<CommandeStatus> := [Received, Paid, Preparing, Sent]

  /** `Array.prototype.indexOf`: the first position of `s` in `w`, or -1. */
  function IndexOf(w: seq<CommandeStatus>, s: CommandeStatus): (r: int)
    ensures -1 <= r < |w|
    ensures 0 <= r ==> w[r] == s && forall j :: 0 <= j < r ==> w[j] != s
    ensures r == -1 <==> s !in w
    decreases |w|
  {
    if |w| == 0 then -1
    else if w[0] == s then 0
    else
      var k := IndexOf(w[1..], s);
      if k == -1 then -1 else k + 1
  }

  /** Where each status stands in the lifecycle, defined without the array. */
  function Rank(s: CommandeStatus): nat {
    match s
    case Received => 0
    case Paid => 1
    case Preparing => 2
    case Sent => 3
  }

  /** Every status sits in the workflow array at its rank. */
  lemma IndexOfIsRank(s: CommandeStatus)
    ensures IndexOf(StatusWorkflow, s) == Rank(s)
  {
  }

  /** A transition from `current` to `next` is accepted unless it goes backwards. */
  predicate Allowed(current: CommandeStatus, next: CommandeStatus) {
    Rank(current) <= Rank(next)
  }

  /**
   * `processStatusWorkflow`: rejects the new status with `StatusInvalid` exactly
   * when it comes earlier in the workflow than the order's current status.
   */
  function ProcessStatusWorkflow(commande: Commande, newStatus: CommandeStatus): (r: Outcome<CommandeError>)
    ensures r.Fail? <==> !Allowed(commande.status, newStatus)
    ensures r.Fail? ==> r.error == StatusInvalid
  {
    IndexOfIsRank(commande.status);
    IndexOfIsRank(newStatus);
    var currentStatusIndex := IndexOf(StatusWorkflow, commande.status);
    var nextStatusIndex := IndexOf(StatusWorkflow, newStatus);
    if currentStatusIndex > nextStatusIndex then Fail(StatusInvalid) else Pass
  }

  /** Re-asserting the current status is accepted. */
  lemma SameStatusAllowed(s: CommandeStatus)
    ensures Allowed(s, s)
  {
  }

  /** Accepted transitions compose, and of two statuses one can always follow the other. */
  lemma AllowedIsTotalOrder(a: CommandeStatus, b: CommandeStatus, c: CommandeStatus)
    ensures Allowed(a, b) && Allowed(b, c) ==> Allowed(a, c)
    ensures Allowed(a, b) && Allowed(b, a) ==> a == b
    ensures Allowed(a, b) || Allowed(b, a)
  {
  }

  /** From `Received` every status is reachable in one step; from `Sent` only `Sent`. */
  lemma InitialAndTerminal(s: CommandeStatus)
    ensures Allowed(Received, s)
    ensures Allowed(Sent, s) <==> s == Sent
  {
  }
}
