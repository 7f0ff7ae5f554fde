/**
 * The decisions behind the two reconciliation paths, independent of the
 * tables: what check_and_update_payment does with YooKassa's answer for one
 * stored payment (functions/functions.py), how a CryptoBot invoice list is
 * searched (handlers/handlers.py, check_crypto_payment_status and
 * check_crypto_payments), and how check_payment chooses what to tell the
 * user.
 */
module Reconcile {
  import opened Wrappers

  const Succeeded: string := "succeeded"
  const Canceled: string := "canceled"
  const Paid: string := "paid"

  /**
   * YooKassa's answer to `GET /v3/payments/{id}`: a 404, a request that
   * raised (connection error, body that is not JSON), or a JSON body whose
   * "status" field may be missing (an error body has none).
   */
  datatype FiatReply = NotFound | RequestFailed | Body(status: Option<string>)

  /** What check_and_update_payment does to a payment found in the table. */
  datatype FiatAction =
    | Ignore                        // nothing written, returns False
    | CreditAndSucceed              // balance += amount_usd, status := 'succeeded', returns True
    | CopyStatus(to: Option<string>) // status := the reply's status (NULL when absent), returns False

  /**
   * check_and_update_payment after the payment row was found, as written:
   * a 'succeeded' reply for a row not yet 'succeeded' credits; any other
   * reply whose status differs from the stored one is copied over it.
   */
  function FiatDecision(reply: FiatReply, stored: Option<string>): (a: FiatAction)
    ensures a.CreditAndSucceed? <==> reply == Body(Some(Succeeded)) && stored != Some(Succeeded)
    ensures a.CopyStatus? <==> reply.Body? && reply.status != stored && reply.status != Some(Succeeded)
    ensures a.CopyStatus? ==> a.to == reply.status
  {
    match reply
    case NotFound => Ignore
    case RequestFailed => Ignore
    case Body(status) =>
      if status == Some(Succeeded) && stored != Some(Succeeded) then CreditAndSucceed
      else if status != stored then CopyStatus(status)
      else Ignore
  }

  /** The stored status after an action. */
  function StatusAfter(stored: Option<string>, a: FiatAction): Option<string> {
    match a
    case Ignore => stored
    case CreditAndSucceed => Some(Succeeded)
    case CopyStatus(to) => to
  }

  /** How many of the replies, seen one after another, credit the balance. */
  function FiatCredits(stored: Option<string>, replies: seq<FiatReply>): (n: nat)
    ensures n <= |replies|
    ensures (forall i :: 0 <= i < |replies| ==> !replies[i].Body?) ==> n == 0
    decreases |replies|
  {
    if replies == [] then 0
    else
      var a := FiatDecision(replies[0], stored);
      (if a.CreditAndSucceed? then 1 else 0) + FiatCredits(StatusAfter(stored, a), replies[1..])
  }

  /** A reply that leaves a 'succeeded' row alone: no body, or 'succeeded' again. */
  predicate KeepsSuccess(reply: FiatReply) {
    !reply.Body? || reply.status == Some(Succeeded)
  }

  /**
   * Polling the same payment again and again credits it at most once as
   * long as YooKassa keeps answering 'succeeded' (or not answering), and
   * never when it was already 'succeeded'.
   */
  lemma {:induction false} FiatRepeatedPollsCreditOnce(stored: Option<string>, replies: seq<FiatReply>)
    requires forall i :: 0 <= i < |replies| ==> KeepsSuccess(replies[i])
    ensures FiatCredits(stored, replies) <= 1
    ensures stored == Some(Succeeded) ==> FiatCredits(stored, replies) == 0
    decreases |replies|
  {
    if replies != [] {
      var a := FiatDecision(replies[0], stored);
      FiatRepeatedPollsCreditOnce(StatusAfter(stored, a), replies[1..]);
      if a.CreditAndSucceed? {
        assert StatusAfter(stored, a) == Some(Succeeded);
      }
    }
  }

  /**
   * As written, an answer without "status" (an error body) after the
   * credit overwrites 'succeeded' with NULL, and the next 'succeeded'
   * answer credits the same payment a second time.
   */
  lemma FiatDoubleCredit(replies: seq<FiatReply>)
    requires replies == [Body(Some(Succeeded)), Body(None), Body(Some(Succeeded))]
    ensures FiatCredits(Some("pending"), replies) == 2
  {
    var pending: Option<string> := Some("pending");
    var r1, r2, r3 := replies[1..], replies[2..], replies[3..];
    assert r1[1..] == r2 && r2[1..] == r3 && r3 == [];
    assert FiatDecision(replies[2], None) == CreditAndSucceed;
    assert FiatCredits(None, r2) == 1 + FiatCredits(Some(Succeeded), r3);
    assert FiatDecision(replies[1], Some(Succeeded)) == CopyStatus(None);
    assert FiatCredits(Some(Succeeded), r1) == FiatCredits(None, r2);
    assert FiatDecision(replies[0], pending) == CreditAndSucceed;
    assert FiatCredits(pending, replies) == 1 + FiatCredits(Some(Succeeded), r1);
  }

  /**
   * The corrected decision: a row already 'succeeded' is final, and a body
   * without a status is not copied. Otherwise it decides as the code does.
   */
  function GuardedFiatDecision(reply: FiatReply, stored: Option<string>): (a: FiatAction)
    ensures stored == Some(Succeeded) ==> a == Ignore
    ensures a.CopyStatus? ==> a.to.Some?
    ensures reply.Body? && reply.status.None? ==> a == Ignore
    ensures stored != Some(Succeeded) && (reply.Body? ==> reply.status.Some?) ==> a == FiatDecision(reply, stored)
  {
    if stored == Some(Succeeded) then Ignore
    else if reply.Body? && reply.status.None? then Ignore
    else FiatDecision(reply, stored)
  }

  function GuardedFiatCredits(stored: Option<string>, replies: seq<FiatReply>): nat
    decreases |replies|
  {
    if replies == [] then 0
    else
      var a := GuardedFiatDecision(replies[0], stored);
      (if a.CreditAndSucceed? then 1 else 0) + GuardedFiatCredits(StatusAfter(stored, a), replies[1..])
  }

  /** Once 'succeeded', a row is never credited again, whatever YooKassa answers. */
  lemma {:induction false} GuardedNoCreditAfterSuccess(replies: seq<FiatReply>)
    ensures GuardedFiatCredits(Some(Succeeded), replies) == 0
  {
    if replies != [] {
      GuardedNoCreditAfterSuccess(replies[1..]);
    }
  }

  /** With the guard, any sequence of answers credits a payment at most once. */
  lemma {:induction false} GuardedFiatCreditsAtMostOnce(stored: Option<string>, replies: seq<FiatReply>)
    ensures GuardedFiatCredits(stored, replies) <= 1
    decreases |replies|
  {
    if replies != [] {
      var a := GuardedFiatDecision(replies[0], stored);
      if a.CreditAndSucceed? {
        GuardedNoCreditAfterSuccess(replies[1..]);
      } else {
        GuardedFiatCreditsAtMostOnce(StatusAfter(stored, a), replies[1..]);
      }
    }
  }

  /**
   * One entry of CryptoBot's invoice list: `str(invoice.get("invoice_id"))`
   * and `invoice.get("status")`. An entry that is not a JSON object is None.
   */
  datatype Invoice = Invoice(id: string, status: Option<string>)

  /**
   * CryptoBot's answer to getInvoices: unreachable (the request raised),
   * "ok" false or missing, or "ok" with "result" as an object (whose
   * "items" list is given, empty when absent) or as a list.
   */
  datatype InvoicesReply =
    | Unreachable
    | NotOk
    | ResultObject(items: seq<Option<Invoice>>)
    | ResultList(entries: seq<Option<Invoice>>)

  /** What the per-invoice scan of check_crypto_payment_status meets first. */
  datatype Lookup =
    | NoMatch               // the loop ends: "pending"
    | Malformed(at: nat)    // invoice.get on a non-object raises: "error"
    | Match(at: nat, status: Option<string>)

  /** An entry with the id (compared as strings). */
  predicate Matches(entry: Option<Invoice>, id: string) {
    entry.Some? && entry.value.id == id
  }

  /**
   * The loop `for invoice in invoices: if str(invoice.get("invoice_id")) ==
   * str(invoice_id): ... return status`: the first entry with the id, unless
   * an entry that is not an object comes before it.
   */
  method FindInvoice(items: seq<Option<Invoice>>, id: string) returns (found: Lookup)
    ensures found.NoMatch? ==> forall j :: 0 <= j < |items| ==> items[j].Some? && items[j].value.id != id
    ensures found.Malformed? ==> found.at < |items| && items[found.at].None?
    ensures found.Match? ==> found.at < |items| && Matches(items[found.at], id) && found.status == items[found.at].value.status
    ensures !found.NoMatch? ==> forall j :: 0 <= j < found.at ==> items[j].Some? && items[j].value.id != id
  {
    var i := 0;
    while i < |items|
      invariant 0 <= i <= |items|
      invariant forall j :: 0 <= j < i ==> items[j].Some? && items[j].value.id != id
    {
      match items[i]
      case None =>
        return Malformed(i);
      case Some(invoice) =>
        if invoice.id == id {
          return Match(i, invoice.status);
        }
      i := i + 1;
    }
    return NoMatch;
  }

  /** How many entries of the sweep's list are objects with the id and status 'paid'. */
  function PaidMatches(entries: seq<Option<Invoice>>, id: string): (n: nat)
    ensures n <= |entries|
    ensures n == 0 <==> forall j :: 0 <= j < |entries| ==> !(Matches(entries[j], id) && entries[j].value.status == Some(Paid))
  {
    if entries == [] then 0
    else
      var rest := PaidMatches(entries[1..], id);
      assert forall j :: 1 <= j < |entries| ==> entries[j] == entries[1..][j - 1];
      (if Matches(entries[0], id) && entries[0].value.status == Some(Paid) then 1 else 0) + rest
  }

  /**
   * The inner loop of check_crypto_payments for one pending record: every
   * entry is visited (there is no break), non-objects are skipped, and each
   * object with the id and status 'paid' triggers the two UPDATEs.
   */
  method CountPaidMatches(entries: seq<Option<Invoice>>, id: string) returns (n: nat)
    ensures n == PaidMatches(entries, id)
  {
    n := 0;
    var i := |entries|;
    while i > 0
      invariant 0 <= i <= |entries|
      invariant n == PaidMatches(entries[i..], id)
    {
      i := i - 1;
      assert entries[i..][1..] == entries[i + 1..];
      if entries[i].Some? && entries[i].value.id == id && entries[i].value.status == Some(Paid) {
        n := n + 1;
      }
    }
    assert entries[0..] == entries;
  }

  /** What check_payment tells the user after check_and_update_payment. */
  datatype Verdict =
    | NotInDatabase           // "payment not found in the database"
    | Confirmed               // "payment confirmed", with the balance
    | AlreadyConfirmed        // "already confirmed earlier", with the balance
    | Cancelled               // "payment was cancelled"
    | Waiting(status: Option<string>) // "not confirmed yet (status: ...)"

  /**
   * check_payment's branches on the row read back after the update: no
   * row, then the update's result, then the stored status.
   */
  function Classify(updated: bool, row: Option<Option<string>>): (v: Verdict)
    ensures row.None? <==> v.NotInDatabase?
    ensures v.Confirmed? <==> row.Some? && updated
    ensures v.AlreadyConfirmed? <==> row.Some? && !updated && row.value == Some(Succeeded)
    ensures v.Cancelled? <==> row.Some? && !updated && row.value == Some(Canceled)
    ensures v.Waiting? ==> v.status == row.value && v.status != Some(Succeeded) && v.status != Some(Canceled)
  {
    match row
    case None => NotInDatabase
    case Some(status) =>
      if updated then Confirmed
      else if status == Some(Succeeded) then AlreadyConfirmed
      else if status == Some(Canceled) then Cancelled
      else Waiting(status)
  }
}
