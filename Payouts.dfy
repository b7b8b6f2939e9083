/**
 The PayPal side of the handler: the payout request body it builds, and how
 it picks the `details` it reports when the token or the payout step fails.
 The HTTP exchange itself is a collaborator (see Collaborators).
 */
module Payouts {
  import opened JsValues
  import Decimal

  /** `{ value, currency }` of a payout item. */
  datatype Money = Money(value: JsValue, currency: string)

  /** One entry of `items`: `recipient_type`, `amount`, `receiver`, `note`. */
  datatype PayoutItem = PayoutItem(recipientType: string, amount: Money, receiver: JsValue, note: string)

  /** `sender_batch_header`: `sender_batch_id` and `email_subject`. */
  datatype BatchHeader = BatchHeader(senderBatchId: string, emailSubject: string)

  /** The JSON body posted to `/v1/payments/payouts`. */
  datatype PayoutBody = PayoutBody(header: BatchHeader, items: seq<PayoutItem>)

  /** The axios error a failed step throws: `response` (present when the
      provider answered, carrying its `data`) and `message`. */
  datatype ProviderError = ProviderError(response: Option<ProviderResponse>, message: string)
  datatype ProviderResponse = ProviderResponse(data: JsValue)
  datatype Option<T> = None | Some(value: T)

  const BatchIdPrefix := "batch_"
  const EmailSubject := "You've received a payment"
  const PayoutNote := "Payout via blockchain verification"

  /** `batch_${Date.now()}`: the prefix followed by the clock reading in decimal. */
  function SenderBatchId(now: nat): (id: string)
    ensures |id| > |BatchIdPrefix| && id[..|BatchIdPrefix|] == BatchIdPrefix
    ensures Decimal.AllDigits(id[|BatchIdPrefix|..])
  {
    BatchIdPrefix + Decimal.FromNat(now)
  }

  /** The clock reading a batch id was made from, if it is one. */
  function BatchTime(id: string): (now: Option<nat>)
    ensures now.Some? <==> |id| > |BatchIdPrefix| && id[..|BatchIdPrefix|] == BatchIdPrefix
                           && Decimal.AllDigits(id[|BatchIdPrefix|..])
  {
    if |id| > |BatchIdPrefix| && id[..|BatchIdPrefix|] == BatchIdPrefix && Decimal.AllDigits(id[|BatchIdPrefix|..])
    then Some(Decimal.ToNat(id[|BatchIdPrefix|..]))
    else None
  }

  /** A batch id reads back to the clock reading it was made from. */
  lemma BatchTimeOfSenderBatchId(now: nat)
    ensures BatchTime(SenderBatchId(now)) == Some(now)
  {
    var id := SenderBatchId(now);
    assert id[|BatchIdPrefix|..] == Decimal.FromNat(now);
    Decimal.ToNatFromNat(now);
  }

  /** The batch id identifies the clock reading it was made from: two
      payouts get the same `sender_batch_id` exactly when they were built in
      the same millisecond. */
  lemma SenderBatchIdInjective(a: nat, b: nat)
    ensures SenderBatchId(a) == SenderBatchId(b) <==> a == b
  {
    BatchTimeOfSenderBatchId(a);
    BatchTimeOfSenderBatchId(b);
  }

  /** The payout request for `recipient` and `amount` as taken from the
      caller's body, built when the clock reads `now`. */
  function BuildPayoutBody(recipient: JsValue, amount: JsValue, now: nat): (body: PayoutBody)
    ensures |body.items| == 1
    ensures body.items[0].receiver == recipient
    ensures body.items[0].amount == Money(amount, "USD")
    ensures body.items[0].recipientType == "EMAIL"
    ensures body.items[0].note == PayoutNote
    ensures body.header == BatchHeader(SenderBatchId(now), EmailSubject)
  {
    PayoutBody(
      BatchHeader(SenderBatchId(now), EmailSubject),
      [PayoutItem("EMAIL", Money(amount, "USD"), recipient, PayoutNote)])
  }

  /** The request body determines what it was built from: two payout
      bodies are equal exactly when they pay the same amount to the same
      receiver and were built at the same millisecond. */
  lemma BuildPayoutBodyInjective(r1: JsValue, a1: JsValue, n1: nat, r2: JsValue, a2: JsValue, n2: nat)
    ensures BuildPayoutBody(r1, a1, n1) == BuildPayoutBody(r2, a2, n2) <==> r1 == r2 && a1 == a2 && n1 == n2
  {
    if BuildPayoutBody(r1, a1, n1) == BuildPayoutBody(r2, a2, n2) {
      BatchTimeOfSenderBatchId(n1);
      BatchTimeOfSenderBatchId(n2);
    }
  }

  /** `err.response ? err.response.data : err.message`: the provider's answer
      when it gave one (even an empty one), the error's message otherwise. */
  function ErrorDetails(err: ProviderError): (details: JsValue)
    ensures err.response.Some? ==> details == err.response.value.data
    ensures err.response.None? ==> details == Str(err.message)
  {
    match err.response
    case Some(r) => r.data
    case None => Str(err.message)
  }

  /** When the provider answered, its answer is reported whatever the
      error's message says, even an empty or absent answer; the message is
      reported only for an error that got no answer, and then always as a
      string. */
  lemma ErrorDetailsPrefersResponse(data: JsValue, m1: string, m2: string)
    ensures ErrorDetails(ProviderError(Some(ProviderResponse(data)), m1))
            == ErrorDetails(ProviderError(Some(ProviderResponse(data)), m2)) == data
    ensures ErrorDetails(ProviderError(None, m1)) == ErrorDetails(ProviderError(None, m2)) <==> m1 == m2
    ensures ErrorDetails(ProviderError(None, m1)).Str?
  {
  }
}
