/**
 The external collaborators of the `/send-money` handler, seen as ports that
 each answer one question: the Python verifier, the Ethereum wallet
 (`sendTransaction`, then `tx.wait()`), and PayPal (the OAuth token, then the
 payout). A request is modelled against an `Environment` that fixes in
 advance what each port would answer and what the clock would read; the
 handler returns the trace of the questions it actually asked, in order.
 */
module Collaborators {
  import opened JsValues
  import Payouts

  /** What the handler gets from the verifier's stdout: text that is not
      JSON, or a parsed result whose `valid`, `block_hash` and `error`
      properties are read (`undefined` when absent). */
  datatype VerifierOutput =
    | Unparseable
    | Parsed(valid: JsValue, blockHash: JsValue, error: JsValue)

  /** `wallet.sendTransaction(...)`: it throws, or yields a transaction with a hash. */
  datatype SendResult = SendFailed | Sent(hash: string)

  /** `tx.wait()`: it throws, or the transaction is mined. */
  datatype WaitResult = ConfirmFailed | Mined

  /** `getPayPalAccessToken()`: it throws, or yields the access token. */
  datatype TokenResult = TokenFailed(err: Payouts.ProviderError) | TokenOk(accessToken: string)

  /** `axios.post(.../v1/payments/payouts, ...)`: it throws, or yields the response data. */
  datatype PayoutResult = PayoutFailed(err: Payouts.ProviderError) | PayoutOk(data: JsValue)

  /** The JSON message written to the verifier's stdin. */
  datatype VerifierRequest = VerifierRequest(sender: JsValue, recipient: JsValue, amount: JsValue, signature: JsValue)

  /** The record logged on chain before hex encoding; `timestamp` is a reading of `Date.now()`. */
  datatype EthMetadata = EthMetadata(sender: JsValue, recipient: JsValue, amount: JsValue, timestamp: nat, blockHash: JsValue)

  /** One question put to a collaborator, with what was sent. */
  datatype Call =
    | Verify(request: VerifierRequest)
    | EthSend(metadata: EthMetadata)
    | EthWait(txHash: string)
    | Token
    | Payout(accessToken: string, body: Payouts.PayoutBody)

  /** The answers every collaborator would give for this request, and the
      two readings of `Date.now()` (for the on-chain metadata and for the
      payout batch id). An answer is used only if the question is asked. */
  datatype Environment = Environment(
    verifier: VerifierOutput,
    ethSend: SendResult,
    ethWait: WaitResult,
    token: TokenResult,
    payout: PayoutResult,
    metadataTime: nat,
    batchTime: nat)

  /** The position of each kind of call in the pipeline. */
  function Stage(c: Call): (k: nat)
    ensures k < 5
  {
    match c
    case Verify(_) => 0
    case EthSend(_) => 1
    case EthWait(_) => 2
    case Token => 3
    case Payout(_, _) => 4
  }

  /** The calls of a trace go strictly forward through the pipeline. */
  predicate InPipelineOrder(t: seq<Call>) {
    forall i, j :: 0 <= i < j < |t| ==> Stage(t[i]) < Stage(t[j])
  }

  /** A trace that goes strictly forward asks each collaborator each
      question at most once: nothing is retried, so at most five calls are
      made, and the k-th call is at stage k or later. */
  lemma {:induction false} PipelineOrderBound(t: seq<Call>)
    requires InPipelineOrder(t)
    ensures |t| <= 5
    ensures forall k :: 0 <= k < |t| ==> k <= Stage(t[k])
    ensures forall i, j :: 0 <= i < j < |t| ==> Stage(t[i]) != Stage(t[j])
    decreases |t|
  {
    if |t| > 0 {
      var init := t[..|t| - 1];
      assert InPipelineOrder(init) by {
        forall i, j | 0 <= i < j < |init| ensures Stage(init[i]) < Stage(init[j]) {
          assert init[i] == t[i] && init[j] == t[j];
        }
      }
      PipelineOrderBound(init);
      forall k | 0 <= k < |t| ensures k <= Stage(t[k]) {
        if k < |t| - 1 {
          assert init[k] == t[k];
        } else if k > 0 {
          assert init[k - 1] == t[k - 1];
        }
      }
      assert |t| - 1 <= Stage(t[|t| - 1]);
    }
  }
}
