/**
 The `POST /send-money` handler: check the input, ask the verifier, log the
 transfer on Ethereum as a best-effort step, pay out through PayPal, and map
 the outcome to an HTTP status and a JSON body.
 */
module Server {
  import opened JsValues
  import opened Collaborators
  import Payouts

  /** What `res.status(code).json(body)` sends; `res.json(body)` alone sends 200. */
  datatype HttpResponse = HttpResponse(status: int, body: JsValue)

  const MissingFieldsMessage := "Missing sender/recipient/amount/signature"
  const InvalidVerifierOutputMessage := "Invalid verifier output"
  const VerificationFailedMessage := "Transaction verification failed"
  const PayPalErrorMessage := "PayPal API error"
  const ServerErrorMessage := "Server error"

  function ErrorBody(message: string): JsValue {
    Obj(map["error" := Str(message)])
  }

  function ErrorWithDetails(message: string, details: JsValue): JsValue {
    Obj(map["error" := Str(message), "details" := details])
  }

  /** The 200 body: the verifier's block hash (or null), the Ethereum hash
      (or null) and PayPal's response data. */
  function SuccessBody(blockHash: JsValue, ethTxHash: JsValue, paypalResponse: JsValue): JsValue {
    Obj(map[
      "status" := Str("success"),
      "python_block_hash" := blockHash,
      "ethereum_tx_hash" := ethTxHash,
      "paypal_response" := paypalResponse])
  }

  /** Some required field of the request body is falsy. */
  predicate FieldsMissing(req: map<string, JsValue>) {
    !Truthy(Get(req, "sender")) || !Truthy(Get(req, "recipient"))
    || !Truthy(Get(req, "amount")) || !Truthy(Get(req, "signature"))
  }

  function VerifierRequestOf(req: map<string, JsValue>): VerifierRequest {
    VerifierRequest(Get(req, "sender"), Get(req, "recipient"), Get(req, "amount"), Get(req, "signature"))
  }

  /** The verifier rendered a verdict and the verdict is truthy. */
  predicate Verified(out: VerifierOutput) {
    out.Parsed? && Truthy(out.valid)
  }

  /** `ethTxHash` after the Ethereum step: the transaction's hash only when
      both the send and the confirmation succeeded, `null` otherwise. */
  function EthTxHash(send: SendResult, wait: WaitResult): (h: JsValue)
    ensures h != Null <==> send.Sent? && wait.Mined?
    ensures h != Null ==> h == Str(send.hash)
  {
    if send.Sent? && wait.Mined? then Str(send.hash) else Null
  }

  /** The questions the Ethereum step asks: the send, then the
      confirmation only if the send went through. */
  function EthCalls(metadata: EthMetadata, send: SendResult): (calls: seq<Call>)
    ensures |calls| == (if send.Sent? then 2 else 1)
    ensures calls[0] == EthSend(metadata)
    ensures send.Sent? ==> calls[1] == EthWait(send.hash)
  {
    if send.Sent? then [EthSend(metadata), EthWait(send.hash)] else [EthSend(metadata)]
  }

  /** A zero amount or an empty string counts as missing, like an absent field. */
  lemma FalsyAmountIsMissing(req: map<string, JsValue>)
    requires "amount" in req && req["amount"] in {Num(0.0), Str(""), Null, Bool(false)}
    ensures FieldsMissing(req)
  {
  }

  /** The log line at the start of verification interpolates `amount`,
      `sender` and `recipient` into a template literal; that conversion
      throws for some inputs, and the outer `catch` answers instead. */
  predicate LogLineThrows(req: map<string, JsValue>) {
    ToStringThrows(Get(req, "amount")) || ToStringThrows(Get(req, "sender"))
    || ToStringThrows(Get(req, "recipient"))
  }

  /** The request gets past the input check and the log line, so the
      verifier is asked. */
  predicate Admitted(req: map<string, JsValue>) {
    !FieldsMissing(req) && !LogLineThrows(req)
  }

  /** The handler for one request body `req`, run against the answers `env`
      its collaborators give. It returns the response sent and the trace of
      the calls it made. */
  method SendMoney(req: map<string, JsValue>, env: Environment) returns (resp: HttpResponse, trace: seq<Call>)
    // Calls only ever go forward through the pipeline; nothing is retried.
    ensures InPipelineOrder(trace)
    ensures resp.status in {200, 400, 500}
    // The input check comes first: no call at all exactly when the request is not admitted.
    ensures trace == [] <==> !Admitted(req)
    ensures FieldsMissing(req) ==> resp == HttpResponse(400, ErrorBody(MissingFieldsMessage))
    ensures !FieldsMissing(req) && LogLineThrows(req) ==> resp == HttpResponse(500, ErrorBody(ServerErrorMessage))
    // Otherwise the verifier is asked first, with the four fields.
    ensures Admitted(req) ==> trace[0] == Verify(VerifierRequestOf(req))
    // Without a truthy verdict the request ends after the verifier call.
    ensures Admitted(req) && !Verified(env.verifier) ==> trace == [Verify(VerifierRequestOf(req))]
    ensures Admitted(req) && env.verifier.Unparseable? ==>
              resp == HttpResponse(500, ErrorBody(InvalidVerifierOutputMessage))
    ensures Admitted(req) && env.verifier.Parsed? && !Truthy(env.verifier.valid) ==>
              resp == HttpResponse(400, ErrorWithDetails(VerificationFailedMessage, env.verifier.error))
    // With a truthy verdict: Ethereum is tried (whatever it answers), then the
    // token, then the payout only if a token was obtained.
    ensures Admitted(req) && Verified(env.verifier) ==>
              var metadata := EthMetadata(Get(req, "sender"), Get(req, "recipient"), Get(req, "amount"),
                                          env.metadataTime, OrNull(env.verifier.blockHash));
              var payout := Payouts.BuildPayoutBody(Get(req, "recipient"), Get(req, "amount"), env.batchTime);
              trace == [Verify(VerifierRequestOf(req))] + EthCalls(metadata, env.ethSend) + [Token]
                       + (if env.token.TokenOk? then [Payout(env.token.accessToken, payout)] else [])
    // The PayPal outcome alone decides the final status.
    ensures Admitted(req) && Verified(env.verifier) && env.token.TokenFailed? ==>
              resp == HttpResponse(500, ErrorWithDetails(PayPalErrorMessage, Payouts.ErrorDetails(env.token.err)))
    ensures Admitted(req) && Verified(env.verifier) && env.token.TokenOk? && env.payout.PayoutFailed? ==>
              resp == HttpResponse(500, ErrorWithDetails(PayPalErrorMessage, Payouts.ErrorDetails(env.payout.err)))
    ensures resp.status == 200 <==>
              Admitted(req) && Verified(env.verifier) && env.token.TokenOk? && env.payout.PayoutOk?
    ensures resp.status == 200 ==>
              resp.body == SuccessBody(OrNull(env.verifier.blockHash), EthTxHash(env.ethSend, env.ethWait), env.payout.data)
    // Ethereum is best effort: once verified, the token step is reached whatever it answered,
    // and the reported hash is non-null only when the send was also confirmed.
    ensures Admitted(req) && Verified(env.verifier) ==> Token in trace
    ensures resp.status == 200 ==>
              (resp.body.fields["ethereum_tx_hash"] != Null <==> env.ethSend.Sent? && env.ethWait.Mined?)
    ensures resp.status == 200 ==>
              resp.body.fields["python_block_hash"] == Null || Truthy(resp.body.fields["python_block_hash"])
  {
    trace := [];
    var sender, recipient, amount, signature := Get(req, "sender"), Get(req, "recipient"), Get(req, "amount"), Get(req, "signature");
    if !Truthy(sender) || !Truthy(recipient) || !Truthy(amount) || !Truthy(signature) {
      resp := HttpResponse(400, ErrorBody(MissingFieldsMessage));
      return;
    }
    // The log line's template literal; a throw lands in the outer catch.
    if ToStringThrows(amount) || ToStringThrows(sender) || ToStringThrows(recipient) {
      resp := HttpResponse(500, ErrorBody(ServerErrorMessage));
      return;
    }

    trace := trace + [Verify(VerifierRequest(sender, recipient, amount, signature))];
    var result := env.verifier;
    if result.Unparseable? {
      resp := HttpResponse(500, ErrorBody(InvalidVerifierOutputMessage));
      return;
    }
    if !Truthy(result.valid) {
      resp := HttpResponse(400, ErrorWithDetails(VerificationFailedMessage, result.error));
      return;
    }

    var blockHash := OrNull(result.blockHash);

    // Best effort: any failure here leaves ethTxHash null and carries on.
    var ethTxHash := Null;
    var metadata := EthMetadata(sender, recipient, amount, env.metadataTime, blockHash);
    trace := trace + [EthSend(metadata)];
    match env.ethSend {
      case SendFailed =>
      case Sent(hash) =>
        trace := trace + [EthWait(hash)];
        if env.ethWait.Mined? {
          ethTxHash := Str(hash);
        }
    }

    trace := trace + [Token];
    match env.token {
      case TokenFailed(err) =>
        resp := HttpResponse(500, ErrorWithDetails(PayPalErrorMessage, Payouts.ErrorDetails(err)));
      case TokenOk(token) =>
        var payoutBody := Payouts.BuildPayoutBody(recipient, amount, env.batchTime);
        trace := trace + [Payout(token, payoutBody)];
        match env.payout {
          case PayoutFailed(err) =>
            resp := HttpResponse(500, ErrorWithDetails(PayPalErrorMessage, Payouts.ErrorDetails(err)));
          case PayoutOk(data) =>
            resp := HttpResponse(200, SuccessBody(blockHash, ethTxHash, data));
        }
    }
  }
}
