# The `/send-money` handler of dapp-backend, modelled in Dafny

The backend exposes one endpoint with real logic, `POST /send-money`. For each
request it:

1. checks that `sender`, `recipient`, `amount` and `signature` are all truthy;
2. asks a Python verifier for a verdict on the transfer;
3. tries to log the transfer on Ethereum, as a best-effort step;
4. pays the recipient out through PayPal, first an OAuth token, then the payout;
5. maps the outcome to an HTTP status and a JSON body.

The model follows that handler step by step. `Server.SendMoney` is a method
with the handler's early returns and its two reassigned locals (`result` and
`ethTxHash`). The collaborators are ports that each answer one question. A
request runs against an `Environment` that fixes in advance what each port
would answer and what `Date.now()` reads. The method returns the response and
the trace of the calls it actually made. So "no call was made", "called in
this order" and "called with this payload" can all be stated as properties.

Files and modules:

- `JsValues.dfy` holds the JSON values the handler sees, plus `undefined` for an
  absent property. It defines JavaScript truthiness, property lookup, the
  `x || null` fallback, and when converting a value to a string throws.
- `Decimal.dfy` renders a non-negative integer as decimal digits, which is how
  `batch_${Date.now()}` prints the clock. It also proves that the digits read
  back to the same number.
- `Collaborators.dfy` holds the step results of the verifier, Ethereum and
  PayPal, the `Call` trace alphabet, the `Environment`, and the pipeline-order
  predicate on traces.
- `Payouts.dfy` holds the PayPal payout request body, the batch id and its
  decoder, and how the error `details` are chosen.
- `Server.dfy` holds the handler itself and the response bodies.

Facts about the handler that a reader might expect otherwise:

- Verifier-output errors, PayPal errors and a failing log line all answer 500.
- The handler persists no transfer record. Its outcomes are only the responses above.
- The Ethereum step cannot be switched off. It is attempted whenever the verdict is truthy.
- One global set of PayPal credentials is used for every sender.
- There is no timeout on the verifier, on `tx.wait()` or on either PayPal call.
- The payout's `sender_batch_id` is `"batch_"` followed by `Date.now()`. It does not depend on the sender.

## Model

| member | source | states |
|---|---|---|
| `Server.SendMoney` | server.js:33-143 | Calls only go forward through the pipeline, and the status is 200, 400 or 500. The trace is empty exactly when the request is not admitted. A falsy required field gives 400 "Missing sender/recipient/amount/signature". Otherwise, if `amount`, `sender` or `recipient` cannot be converted to a string for the log line at server.js:40 (in the model: an object with its own `toString`, or an array holding one; see "Left out" for stack exhaustion), the outer catch answers 500 "Server error". Otherwise the verifier is called first, with the four fields. Unparseable output gives 500 "Invalid verifier output" and a falsy `valid` gives 400 with `details` = the verifier's `error`; in both cases nothing after the verifier is called. After a truthy verdict the trace is exactly: verify, Ethereum send, confirmation only if the send succeeded, token, and payout only if a token was obtained (with the token and the payout body). Once verified, the token step is always reached. Status 200 happens exactly when verification, token and payout all succeed, and its body is the success body. A failed token or payout gives 500 "PayPal API error" whose `details` are `Payouts.ErrorDetails` of the thrown error: the provider's response data when it answered, else the error's message (server.js:130-132). The 200 body's `ethereum_tx_hash` is non-null exactly when the send and its confirmation both succeeded. Its `python_block_hash` is null or truthy. |
| `Server.EthTxHash` | server.js:65-89 | `ethTxHash` is non-null exactly when `sendTransaction` and `tx.wait()` both succeeded, and is then the sent transaction's hash; a send whose confirmation fails leaves it null |
| `Server.EthCalls` | server.js:66-84 | the Ethereum step always sends once, and asks for confirmation (of that transaction's hash) only when the send succeeded |
| `Server.FalsyAmountIsMissing` | server.js:36 | an amount of `0`, `""`, `null` or `false` fails the input check just like an absent field |
| `JsValues.OrNull` | server.js:61 | the `block_hash` fallback is the block hash when it is truthy and `null` otherwise, so the result is always truthy or null |
| `Collaborators.PipelineOrderBound` | server.js:43-120 | a trace that goes strictly forward through the five stages has at most five calls, the k-th call is at stage k or later, and hence no stage is called twice (no step is retried); the first two need the induction, the last follows from the ordering directly |
| `Payouts.BuildPayoutBody` | server.js:98-109 | the payout request has exactly one item, with `receiver` = recipient, `amount` = {value: amount, currency "USD"}, `recipient_type` "EMAIL" and the fixed note; its header carries `batch_<now>` and the fixed email subject |
| `Payouts.SenderBatchId` | server.js:100 | the batch id is `batch_` followed by a non-empty string of decimal digits |
| `Payouts.BatchTimeOfSenderBatchId` | server.js:100 | decoding the batch id (prefix `batch_`, then decimal digits) gives back exactly the clock reading it was built from |
| `Payouts.BuildPayoutBodyInjective` | server.js:98-109 | two payout bodies are equal exactly when they pay the same amount to the same receiver and were built at the same millisecond, so the body determines all three inputs |
| `Payouts.ErrorDetailsPrefersResponse` | server.js:130-132 | when the provider answered, its answer is the details whatever the error message says (even an empty answer); the message is reported only for an unanswered error, as a string that differs exactly when the message does |
| `Payouts.SenderBatchIdInjective` | server.js:100 | two payouts get the same `sender_batch_id` exactly when they were built at the same millisecond |
| `Decimal.FromNat` | server.js:100 | the rendering of `Date.now()` is a non-empty string of digits with no leading zero, one digit long exactly for values below 10 |
| `Decimal.ToNatFromNat` | server.js:100 | reading the rendered digits back yields the number that was rendered |
| `Decimal.FromNatInjective` | server.js:100 | distinct clock readings render as distinct strings |

## Left out

- The verifier process is left out: spawning it, writing stdin, stderr and exit-code logging (server.js:43-47, 136-137). The verifier is one abstract answer. Several stdout `data` chunks each triggering the handler is stream behaviour and is not modelled. A `spawn` failure is not modelled either. Depending on the error it reaches the outer catch and answers 500 "Server error" (`spawn` throwing synchronously, or returning without stdio so that `python.stdin.write` at server.js:44 throws), or it is emitted as an `error` event that nothing listens to, which crashes the server.
- The model assumes every collaborator call returns. In the code none of them has a timeout: the verifier's stdout at server.js:47, `tx.wait()` at server.js:80 and the two axios calls at server.js:20 and server.js:111. A collaborator that never answers leaves the request without any response.
- Verifier output that parses to `null` is not modelled. `result.valid` would throw at server.js:56 inside the `async` `data` listener. That is an unhandled promise rejection: no response is sent, and on Node 15 and later it ends the whole server process by default. Any other parsed value is represented by its `valid`, `block_hash` and `error` properties, `undefined` when absent.
- The ethers wallet and provider set-up, the JSON and hex encoding of the on-chain metadata, and transaction signing and RPC are left out (server.js:15-16, 68-82), because they are foreign library internals. The metadata is kept only as the record of fields it is made from.
- The PayPal HTTP exchanges and the OAuth handshake are left out (server.js:19-31, 111-120). They are network clients. Each one is a step that yields a value or throws an error with an optional `response.data` and a `message`. The access token is modelled as a string.
- Express, cors and dotenv setup, `app.listen` and all `console` logging are left out (server.js:1-12, 145-146). Logging is modelled only where it changes the outcome: the template literal of the log line at server.js:40 can throw, and the outer catch at server.js:139-141 then answers 500 "Server error" before the verifier is spawned. Apart from that case, from stack exhaustion (next line), from the `spawn` failures above and from a request body that is not an object (below), no statement inside that `try` throws on a JSON request body: `JSON.stringify` of JSON values does not throw, and everything after the `data` callback is registered runs outside it.
- Stack exhaustion on deeply nested values is not modelled. An `amount`, `sender` or `recipient` that is a truthy array nested tens of thousands of levels deep (small enough for the body-size limit) makes the template literal at server.js:40 recurse through `Array.prototype.join` until a RangeError is thrown; the outer catch at server.js:139-141 then answers 500 "Server error" and the verifier is never spawned. The same happens to a deeply nested truthy `signature`, which is not interpolated at server.js:40 but overflows `JSON.stringify` at server.js:44, after the spawn at server.js:43 and before the `data` listener is registered: the answer is again 500 "Server error". The model treats such values as convertible and calls the verifier.
- The model takes `req.body` to be the object that `express.json()` produced, as a map from keys to JSON values. An array body reads as all four fields absent, so it is answered 400. For a request that `express.json()` did not parse (no JSON content type): on Express 4 `req.body` is `{}`, so the answer is 400 "Missing sender/recipient/amount/signature"; on Express 5 it is `undefined`, the destructuring at server.js:35 throws, and the outer catch answers 500 "Server error". The Express version is not part of this model, and an unparsed body is not represented.
- `res.json` serialises with `JSON.stringify`, which drops properties whose value is `undefined`, such as `details` when the verifier gave no `error`. The model keeps the body as the object handed to `res.json`.
- `Date.now()` always yields a non-negative integer here. Exponent notation, which starts at 10^21, is not modelled.
- Numbers are modelled as reals. `JSON.parse` can also produce `-0`, which the model represents as `Num(0.0)`; both are falsy, and both print as `0`. It can also produce `Infinity` (from `1e400`), which the model cannot represent: it is truthy and converts to a string, so such an amount passes the input check, and `JSON.stringify` sends it to the verifier (server.js:44) and to PayPal as `null`. `NaN` and BigInt cannot come out of JSON.
- The mongoose schemas (models/Users.js, models/TransactionsSchema.js, models/Secret.js) are not used by the handler, so no persistence step is modelled. test.js is an RPC connectivity check only.
