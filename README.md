# Support-dashboard login routes, modelled in Dafny

This project models the server half of a customer-support chat demo. Two HTTP routes provide
accounts and channels on a hosted chat service. `POST /customer-login` takes a first and last
name. `POST /admin-login` takes an admin identifier. Each route:

1. inside one `try` block, normalises the submitted identity: every whitespace character becomes
   `_`, and the result is lower-cased;
2. still inside that block, mints a token for that identity, upserts a user, describes and
   creates a `messaging` channel and adds its members;
3. answers 200 with the credentials the browser needs;
4. on any throw, from the normalisation or from a call, answers 500 with `{error: err.message}`
   instead.

Modules:

- `Identity` (identity.dfy): the normaliser as pure functions. `ReplaceWhitespace` is
  `replace(/\s/g, '_')`, `ToLower` is `toLowerCase()`, `Normalize` is the admin expression and
  `CustomerUsername` the customer expression. Lemmas cover canonical form, length, idempotence
  and concatenation.
- `StreamService` (service.dfy): the shared server-side client. It is a `Client` class that
  records every call it receives, with its arguments, in `log`. A `Service` value gives the
  hosted service's answer to each call: a return value or a thrown message. That answer may
  depend on every call the service has received before, so the success or failure of every step
  is an input. `Perform` is the meaning of a sequence of awaited calls inside one `try`: calls go
  out in order, and the first throw ends the block.
- `Routes` (routes.dfy): the request and response shapes, and the call plan of each route
  (`CustomerPlan`, `AdminPlan`). `CustomerLogin` and `AdminLogin` are pure functions giving the
  calls and the response of one request. The class `Router` holds the API key and the shared
  client. Its methods `CustomerLoginRoute` and `AdminLoginRoute` perform the calls one by one on
  the client, as the handlers do. Each is proved to append exactly the calls its specification
  function gives to the client's log, and to return that function's response.

Behaviour worth noting:

- Each whitespace character becomes its own underscore, so `"a  b"` gives `"a__b"`
  (`RunsAreNotCollapsed`).
- Whitespace-only input gives underscores; only the empty string normalises to the empty
  identity (`NormalizeEmptyOnlyForEmpty`).
- `channel(...)` is called before `create()`. The model records it as `OpenChannel`, and it can
  throw like the other calls.

## Model

| member | source | states |
|---|---|---|
| `Identity.LowerChar` | backend/routes/index.js:14 | the case mapping of one character never yields a capital, keeps non-capitals, sends A–Z to a–z, and keeps whitespace and non-whitespace apart |
| `Identity.ReplaceWhitespace` | backend/routes/index.js:12-13 | the result has the input's length; each whitespace position becomes `_`, every other position is unchanged |
| `Identity.ToLower` | backend/routes/index.js:14 | the result has the input's length and holds the case mapping of each input character at the same position |
| `Identity.IsWhitespace` | backend/routes/index.js:12-13 | no ensures of its own: the `\s` class; its use is stated by `ReplaceWhitespace` and `LowerChar` |
| `Identity.Normalize` | backend/routes/index.js:49 | no ensures of its own: its properties are the `Normalize…` lemma rows below |
| `Identity.CustomerUsername` | backend/routes/index.js:12-14 | no ensures of its own: its properties are `CustomerUsernameSplits`, `CustomerUsernameIsNormalized`, `CustomerUsernameNotInjective` and `AnnLeeUsername` |
| `Identity.NormalizeIsNormalized` | backend/routes/index.js:49 | the admin identity has the length of `adminId` and contains no whitespace and no capital letter |
| `Identity.NormalizeFixesExactlyNormalized` | backend/routes/index.js:49 | normalisation leaves a string unchanged if and only if it has no whitespace and no capital |
| `Identity.NormalizeIdempotent` | backend/routes/index.js:49 | normalising an identity twice gives the same identity as normalising it once |
| `Identity.NormalizeEmptyOnlyForEmpty` | backend/routes/index.js:49 | the identity is empty exactly when the input is; when every input character is whitespace, every character of the identity is `_` |
| `Identity.NormalizeMatches` | backend/routes/index.js:49 | a string that agrees position by position with the lower-cased, underscore-for-whitespace input is its identity |
| `Identity.RunsAreNotCollapsed` | backend/routes/index.js:49 | `"a  b"` normalises to `"a__b"` (one underscore per whitespace character) and `" "` to `"_"` |
| `Identity.SupportTeamIsNormalized` | backend/routes/index.js:49 | `"Support Team"` normalises to `"support_team"` |
| `Identity.JaneDoeIsNormalized` | backend/routes/index.js:49 | `"Jane Doe"` normalises to `"jane_doe"` |
| `Identity.ToLowerAppend` | backend/routes/index.js:14 | lower-casing a concatenation is the concatenation of the lower-cased parts |
| `Identity.CustomerUsernameSplits` | backend/routes/index.js:12-14 | the customer identity equals the normalised first name followed by the normalised last name |
| `Identity.CustomerUsernameIsNormalized` | backend/routes/index.js:12-14 | the customer identity is as long as the two names together, has no whitespace and no capital |
| `Identity.CustomerUsernameNotInjective` | backend/routes/index.js:12-14 | "Ann"/"Lee" and "an"/"nLee" both give `annlee`, so two different customers can share an identity and a channel |
| `Identity.AnnLeeUsername` | backend/routes/index.js:12-14 | "Ann"/"Lee" gives the customer identity `annlee` |
| `StreamService.Perform` | backend/routes/index.js:16-32 | the calls sent are a prefix of the plan, in plan order; with no error the whole plan was sent and every call returned; with an error, every call before the last one sent returned and the last one threw that error's message |
| `StreamService.PerformSucceedsIff` | backend/routes/index.js:16-32 | the block completes without error if and only if every call of the plan returns, and then all of them were sent |
| `StreamService.PerformAllDone` | backend/routes/index.js:16-32 | when every call returns, the whole plan is sent and no error is reported |
| `StreamService.PerformStopsAt` | backend/routes/index.js:16-32 | when call k is the first that throws, calls 0..k are sent, nothing after, and k's message is reported |
| `StreamService.Client.constructor` | backend/routes/index.js:8 | a new client has received no call |
| `StreamService.Client.Send` | backend/routes/index.js:16-32 | a call is appended to the client's log and answered by the service given the calls received before it |
| `Routes.Failure` | backend/routes/index.js:41-44 | no ensures of its own: the catch branch, 500 with the error's message (also index.js:73-76); stated by `CustomerLoginOutcome`, `AdminLoginOutcome` and the two `…RejectsNonText` lemmas |
| `Routes.Conclude` | backend/routes/index.js:34-44 | no ensures of its own: 200 with the credentials when the block completed, otherwise the catch branch (also index.js:67-76); stated by the `…Outcome` and `…Success` lemmas |
| `Routes.IssuedToken` | backend/routes/index.js:16 | no ensures of its own: the value `createToken(username)` returns (also index.js:50); stated by `CustomerLoginSuccess` and `AdminLoginSuccess` through `service(history, run.calls[0]) == Done(token)` |
| `Routes.CustomerPlan` | backend/routes/index.js:16-32 | no ensures of its own: the calls it lists are stated by `CustomerLoginSuccess` and `CustomerRetryTargetsSameChannel` |
| `Routes.CustomerSteps` | backend/routes/index.js:16-32 | no ensures of its own: the plan with the minted token filled in; stated by `CustomerLoginOutcome` and `CustomerLoginSuccess` |
| `Routes.CustomerLogin` | backend/routes/index.js:10-45 | no ensures of its own: its properties are `CustomerLoginRejectsNonText`, `CustomerLoginOutcome`, `CustomerLoginSuccess`, `EmailIsNeverRead` and `CustomerRetryTargetsSameChannel` |
| `Routes.AdminSetup` | backend/routes/index.js:50-65 | no ensures of its own: the fixed calls after the token, stated by `AdminIdentityOnlyInToken` |
| `Routes.AdminPlan` | backend/routes/index.js:50-65 | no ensures of its own: stated by `AdminLoginSuccess` and `AdminIdentityOnlyInToken` |
| `Routes.AdminSteps` | backend/routes/index.js:50-65 | no ensures of its own: the plan with the minted token filled in; stated by `AdminLoginOutcome` and `AdminLoginSuccess` |
| `Routes.AdminLogin` | backend/routes/index.js:47-77 | no ensures of its own: its properties are `AdminLoginRejectsNonText`, `AdminLoginOutcome`, `AdminLoginSuccess` and `AdminIdentityOnlyInToken` |
| `Routes.CustomerLoginRejectsNonText` | backend/routes/index.js:12-13 | a non-string `firstName` (read first) or `lastName` answers 500 with the TypeError's message and sends no call |
| `Routes.CustomerLoginOutcome` | backend/routes/index.js:10-45 | the customer route sends a prefix of its plan in order; it answers 200 exactly when every call returns; otherwise it answers 500 with the message of the first call that threw, which is the last call sent |
| `Routes.CustomerLoginSuccess` | backend/routes/index.js:12-39 | on 200: `customerId == channelId ==` the normalised names; the stream API key is returned; the token is minted for that identity, returned, and passed to `updateUser`; the user is `{id: identity, name: firstName with whitespace replaced, case kept}`; the channel is `messaging`/identity named "Chat with " + identity, created by `admin`, with members `[identity, 'admin']`; `create` is called on it; `addMembers` gets the same member list |
| `Routes.EmailIsNeverRead` | backend/routes/index.js:12-14 | changing the `email` field changes neither the calls nor the response |
| `Routes.CustomerRetryTargetsSameChannel` | backend/routes/index.js:16-32 | two logins with the same names send the same calls position by position (only the token given to `updateUser` may differ), whatever the service answered in between |
| `Routes.AdminLoginRejectsNonText` | backend/routes/index.js:49 | a non-string `adminId` answers 500 with the TypeError's message and sends no call |
| `Routes.AdminLoginOutcome` | backend/routes/index.js:47-77 | the admin route sends a prefix of its plan in order; it answers 200 exactly when every call returns; otherwise it answers 500 with the message of the first call that threw, which is the last call sent |
| `Routes.AdminLoginSuccess` | backend/routes/index.js:49-71 | on 200: `adminName` is the normalised `adminId`, canonical, and is the token's subject; the returned token is the one minted; the API key is returned; the rest of the calls are the fixed admin setup |
| `Routes.AdminIdentityOnlyInToken` | backend/routes/index.js:50-65 | after the token call: the user upserted is always `{id: 'admin', name: 'admin'}`; the channel is always `messaging`/`livechat`, named "Customer Support Dashboard" and created by `admin`; `addMembers` always gets `['admin']`; the route never mints a second token |
| `Routes.AnnLeeLogsIn` | backend/routes/index.js:10-39 | Ann Lee, with every call returning, gets 200 with `customerId == channelId == "annlee"` |
| `Routes.SupportTeamLogsIn` | backend/routes/index.js:47-71 | "Support Team", with every call returning, gets 200 with `adminName == "support_team"`, and the user upserted is `admin` |
| `Routes.JaneDoeIsStoredAsAdmin` | backend/routes/index.js:47-71 | "Jane Doe" gets `adminName == "jane_doe"` while the user upserted is `{id: 'admin', name: 'admin'}` |
| `Routes.TokenFailureStopsCustomerLogin` | backend/routes/index.js:16-43 | when minting the token throws, only that call was sent and the response is 500 with its message |
| `Routes.Router.constructor` | backend/routes/index.js:5-8 | the router holds the configured API key and a fresh client that has received no call |
| `Routes.Router.CustomerLoginRoute` | backend/routes/index.js:10-45 | the handler appends exactly `CustomerLogin`'s calls to the shared client's log and returns its response |
| `Routes.Router.ProvisionCustomer` | backend/routes/index.js:16-43 | the customer `try` block, once the identity is known, sends what `Perform` gives for the customer plan and concludes with 200 or the first error |
| `Routes.Router.AdminLoginRoute` | backend/routes/index.js:47-77 | the handler appends exactly `AdminLogin`'s calls to the shared client's log and returns its response |
| `Routes.Router.ProvisionAdmin` | backend/routes/index.js:50-75 | the admin `try` block, once the identity is known, sends what `Perform` gives for the admin plan and concludes with 200 or the first error |

## Left out

- Unicode case mapping: `LowerChar` maps only A–Z. JavaScript's `toLowerCase` also lower-cases non-ASCII letters, sometimes into more than one code unit (U+0130). So every Identity result, and every identity the route lemmas state, agrees with the source only on inputs whose non-ASCII characters have no lower-case mapping.
- Whitespace is the exact ECMAScript `\s` set. Dafny characters are Unicode scalar values, while JavaScript strings are UTF-16 code units. Every `\s` character is a single code unit, so replacement is the same, but lengths count code points rather than code units.
- Token signing is not modelled: the token is whatever the service's answer to `CreateToken` carries. The secret from `process.env.STREAM_API_SECRET` is not modelled either.
- What the hosted service does with `updateUser`, `create` and `addMembers` is not modelled. This covers upsert, idempotent re-creation and member de-duplication. The model states which calls are sent, not what the service stores.
- `channel(...)` builds a handle locally in the SDK. The model records it as a call that can throw like the others.
- The `res` object is modelled as the returned `Response` value. `console.error` logging, Express routing and middleware, and the JSON encoding of the body are not modelled. That includes JSON dropping an `undefined` API key or error message.
- A non-string body field is modelled as a value whose `.replace` throws a TypeError with a given message. That message is taken as input, because the engine's wording is not part of this code.
- The async scheduling and concurrent requests are not modelled. Each handler is sequential, and the shared client's log orders the calls of one request after another.
- The browser components in frontend/src (Customer.js, Admin.js, index.js) are not part of this model. They render third-party widgets and pass the response fields back to the SDK.
