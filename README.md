# Cognito trigger dispatcher, modelled in Dafny

This project models the core of a Lambda function that receives Cognito
user-pool lifecycle events. The function decodes a generic event envelope and
routes it by its `triggerSource` to at most one trigger handler. It then
writes the handler's encoded response into the envelope's `response` field
and encodes the envelope again.

- `wrappers.dfy`, module `Wrappers`: `Option` and `Result`.
- `strings.dfy`, module `Strings`: Go's `strings.Split` with a one-character
  separator, its inverse `strings.Join` (on non-empty lists, the only ones
  `Split` produces), and the lemmas that tie them
  together. These are the count of pieces, separator-free pieces, and both
  round trips.
- `cognito.dfy`, module `Cognito` (pkg/triggers/cognito.go): the envelope, as
  a datatype value and as the class the dispatcher updates in place, the error
  values, and the four handlers as functions. The pre-sign-up handler is
  proved equal to an independent description of its two gates:
  `InviteAccepted`, and `DomainAccepted`/`InDomain`, which say "the email is
  `local@domain` with exactly one `@`".
- `dispatcher.dfy`, module `Dispatcher` (pkg/triggers/dispatcher.go): the
  trigger-source constants, the routing switch `Route`, `RawResponse`, the
  four dispatch methods and `Handler`. The dispatch methods modify only
  `evt.response`. `Handler` allocates the envelope and sequences the calls.
  Each method is proved against a specification function: `Dispatch` for the
  dispatch methods and `Handle` for `Handler`. The lemmas about the dispatcher
  are stated about those functions.

External collaborators are parameters. `Env` bundles the JSON library
(`Codec`: four total functions that either succeed or fail), the
environment variables (`Config`: `SIGNUP_INVITE_CODE`, `WHITELIST_DOMAIN`,
`SIGNUP_SNS_TOPIC`, where an unset variable is `""`), and the outcome of an
SNS publish for a given input. The publish calls a run makes are returned as
the sequence `published`.

Three behaviours of the code that a reader might not expect:
- An email with zero or several `@` is rejected only when a whitelist domain
  is configured. With no whitelist domain, such an email is accepted
  (`DomainGateTwoAts`).
- An unrouted event keeps any `response` it already carried. The model does
  not force that field to be absent (`HandlePassThrough`).
- A request that is missing or `null` leaves `evt.Request` nil. The code then
  dereferences that nil pointer (pkg/triggers/dispatcher.go:81, 105, 129,
  153), which is a Go panic. The model turns it into the explicit error
  `NilRequest`: the call fails and produces no output.

## Model

| member | source | states |
|---|---|---|
| `Strings.Split` | pkg/triggers/cognito.go:69 | `strings.Split` never returns an empty list; the empty string splits into one empty piece |
| `Strings.SplitLength` | pkg/triggers/cognito.go:69-70 | the number of pieces is the number of separators plus one |
| `Strings.SplitTokensOmitSeparator` | pkg/triggers/cognito.go:69-74 | no piece contains the separator |
| `Strings.JoinSplit` | pkg/triggers/cognito.go:69 | joining the pieces with the separator gives back the input |
| `Strings.SplitJoin` | pkg/triggers/cognito.go:69-74 | splitting a join of separator-free pieces gives back those pieces |
| `Cognito.CognitoPoolEventEnvelope.constructor` | pkg/triggers/cognito.go:29-38 | the envelope object holds exactly the decoded field values |
| `Cognito.PreSignUp` | pkg/triggers/cognito.go:45-82 | success is always the zero-valued pre-sign-up response; a failure is InvalidSignUpCode or InvalidDomain |
| `Cognito.PreSignUpInviteGate` | pkg/triggers/cognito.go:48-58 | with an invite code configured, the result is InvalidSignUpCode exactly when `invite_code` is missing or differs from the code |
| `Cognito.PreSignUpDecision` | pkg/triggers/cognito.go:48-81 | the result equals the reference decision: invite gate first (so a request failing both gates gets InvalidSignUpCode), then the domain gate, then success |
| `Cognito.EmailDomainSplit` | pkg/triggers/cognito.go:69-77 | "split on `@` gives two pieces and the second equals the domain" holds exactly when the email is `local@domain` with one `@` |
| `Cognito.PreSignUpMalformedEmail` | pkg/triggers/cognito.go:69-73 | with a whitelist domain configured and the invite gate passed, an email whose `@` count is not one gives InvalidDomain |
| `Cognito.PreSignUpUnconfigured` | pkg/triggers/cognito.go:48-81 | with both settings empty, every attribute map is accepted with the empty response |
| `Cognito.InviteGateExamples` | pkg/triggers/cognito.go:48-58 | with code "ABC": no `invite_code` and "XYZ" are rejected, "ABC" passes |
| `Cognito.DomainGateRejectsOtherDomain` | pkg/triggers/cognito.go:74-77 | with domain "example.com", "a@evil.com" is rejected with InvalidDomain |
| `Cognito.DomainGateAcceptsWhitelisted` | pkg/triggers/cognito.go:63-81 | with domain "example.com", "a@example.com" is accepted |
| `Cognito.DomainGateTwoAts` | pkg/triggers/cognito.go:63-81 | "a@b@c" is rejected when a domain is configured and accepted when none is |
| `Cognito.PreAuthentication` | pkg/triggers/cognito.go:85-88 | every request succeeds with the empty pre-authentication response |
| `Cognito.PreToken` | pkg/triggers/cognito.go:91-94 | every request succeeds with the empty pre-token-generation response |
| `Cognito.PostConfirmationSignUp` | pkg/triggers/cognito.go:97-123 | with no `email`: MissingEmail and no publish. Otherwise exactly one publish, to the configured topic, with subject "new signup" and message "signup of user " + email. A publish error is returned as-is; a successful publish gives the empty response |
| `Dispatcher.Route` | pkg/triggers/dispatcher.go:51-72 | a handler is chosen exactly for the eight routed sources, by exact match. The five `TokenGeneration_*` sources and `PreAuthentication_Authentication` share the pre-authentication path. The pre-token method is never chosen |
| `Dispatcher.RawResponse` | pkg/triggers/dispatcher.go:173-183 | the raw message is exactly the marshalled bytes of the response; a marshal failure is an encode error |
| `Dispatcher.Dispatch` | pkg/triggers/dispatcher.go:78-171 | a dispatch succeeds exactly when the request is present and decodes, the handler succeeds and its response marshals; the envelope then differs from the input only in `response`, which holds the handler's marshalled response. A failure reports NilRequest, DecodeFailed, the handler's own error as-is, or EncodeFailed, in that order of checks; the handler's publishes are passed on whenever the handler ran, and there are none otherwise |
| `Dispatcher.DispatchTo` | pkg/triggers/dispatcher.go:78-171 | the envelope object ends as `Dispatch` says. On error its `response` is not assigned and the error is reported. Only `response` may change |
| `Dispatcher.PreSignUp` | pkg/triggers/dispatcher.go:78-99 | `DispatchTo` with the pre-sign-up request shape and handler |
| `Dispatcher.PreAuthentication` | pkg/triggers/dispatcher.go:102-123 | `DispatchTo` with the pre-authentication request shape and handler |
| `Dispatcher.PreToken` | pkg/triggers/dispatcher.go:126-147 | `DispatchTo` with the pre-token-generation request shape and handler |
| `Dispatcher.PostConfirmationSignUp` | pkg/triggers/dispatcher.go:150-171 | `DispatchTo` with the post-confirmation request shape and handler |
| `Dispatcher.Marshal` | pkg/triggers/dispatcher.go:74 | the envelope's encoding succeeds exactly when `json.Marshal` does and gives its bytes; a failure is an encode error |
| `Dispatcher.Handler` | pkg/triggers/dispatcher.go:37-75 | the bytes or error returned, and the publishes made, are those of the reference `Handle` |
| `Dispatcher.HandleDecodeFailure` | pkg/triggers/dispatcher.go:46-49 | an undecodable payload gives a decode error, no output and no publish |
| `Dispatcher.UnhandledSources` | pkg/triggers/dispatcher.go:12-24 | `PreSignUp_AdminCreateUser`, `PostConfirmation_ConfirmForgotPassword` and `PostAuthentication_Authentication` are not routed |
| `Dispatcher.HandlePassThrough` | pkg/triggers/dispatcher.go:51-74 | an unrouted source runs no handler, is not an error, and re-encodes the decoded envelope unchanged, including any response it carried |
| `Dispatcher.TokenGenerationSharesPreAuthentication` | pkg/triggers/dispatcher.go:67-71 | a `TokenGeneration_*` event is handled exactly as on the pre-authentication path; no source reaches the pre-token method |
| `Dispatcher.HandleAtMostOnePublish` | pkg/triggers/dispatcher.go:51-72 | at most one publish per call, and only for `PostConfirmation_ConfirmSignUp` |
| `Dispatcher.HandlePropagatesDispatchError` | pkg/triggers/dispatcher.go:53-56 | a failing dispatch method's error is the call's error, with no output bytes |
| `Dispatcher.HandleReportsPreSignUpRejection` | pkg/triggers/dispatcher.go:52-56 | a `PreSignUp_SignUp` event rejected by the pre-sign-up gates fails with that gate's error (InvalidSignUpCode or InvalidDomain), with no bytes and no publish |
| `Dispatcher.HandlePublishesSignUp` | pkg/triggers/dispatcher.go:62-66 | a `PostConfirmation_ConfirmSignUp` event whose request has an email makes exactly one publish, to the configured topic, with subject "new signup" and the email in the message |
| `Dispatcher.HandleWritesOnlyResponse` | pkg/triggers/dispatcher.go:90-96 | on success the output is the encoding of the input envelope with only `response` replaced by the handler's marshalled response |
| `Dispatcher.HandleEncodeFailure` | pkg/triggers/dispatcher.go:51-75 | when the envelope to be returned (unchanged for an unrouted source, or after a successful dispatch) does not encode, the call fails with an encode error and no bytes |
| `Dispatcher.PreAuthenticationEventAccepted` | pkg/triggers/dispatcher_test.go:14-58 | a pre-authentication event with a decodable request returns output and no error, whatever response it carried in, provided encoding succeeds |

## Left out

- JSON encoding and decoding (`encoding/json`, `json.RawMessage`) are not modelled byte by byte. They are the abstract `Codec`. The request types are reduced to their `userAttributes` map; `validationData` and the token-generation group configuration are not modelled, since no handler reads them. The Go errors of `json.Unmarshal`/`json.Marshal` become `DecodeFailed`/`EncodeFailed` without their text.
- The `EventReceived`/`EventSent` hooks around `Handler` (pkg/triggers/dispatcher.go:40-42) are left out. They only record time and export telemetry, and have no effect on the result. pkg/hooks/hooks.go and pkg/hooks/honey.go are not part of this model.
- Reading `SIGNUP_INVITE_CODE`, `WHITELIST_DOMAIN` and `SIGNUP_SNS_TOPIC` from the process environment is replaced by the `Config` parameter.
- The AWS session and the SNS client (pkg/triggers/cognito.go:106-114 and pkg/eventstream/events.go) are replaced by the publish-outcome parameter. The returned message id is not used. `session.Must(session.NewSession())` (pkg/triggers/cognito.go:106) panics before any publish when no session can be created; the publish-outcome parameter cannot express that crash.
- Logging is left out, and so is the `evt` argument the handlers take only for logging.
- The process bootstrap (cmd/triggers/main.go) is not part of this model.
- The Go panic on a nil request is modelled as the error `NilRequest` rather than as a crash.
