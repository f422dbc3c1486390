# Xcode Cloud build trigger: a verified model

This project models the core of a GitHub Action that starts an Xcode Cloud
build through the App Store Connect API. The exported `trigger` of
`action.js` runs these steps in order:

1. It checks that every required parameter is set.
2. It reads the API credentials from the action's inputs and masks the
   private key in the logs.
3. It prepares an App Store Connect token and masks it. The token is an
   ES256 JWT with the registered claims of section 4.1 of RFC 7519
   (`iss`, `aud`, `iat`, `exp`), and it lives ten minutes.
4. It fetches the workflow.
5. It resolves the branch to a git reference. This lookup is retried up to
   twice, with 700 ms between attempts.
6. It creates the build.
7. It sets the `build_id`, `build_number` and `git_reference_id` outputs and
   returns them as a record.

Any thrown error stops the run. It is reported through `setFailed` with a
"❌ " prefix and then rethrown.

The model has five modules, one file each:

- `Results` (`results.dfy`): `Option` and a failure-compatible `Result`, so
  that `:-` in a method plays the part of a JavaScript `throw`.
- `Errors` (`errors.dfy`): the errors `trigger` can throw and their
  `message`.
- `AscToken` (`asc_token.dfy`): `generateAscJwt`, written as pure functions
  with lemmas.
  - On missing credentials it returns an error and never calls the signer.
  - Otherwise it builds the claims and the PEM key with every literal
    backslash-`n` replaced by a newline.
  - The signer is a parameter.
- `Retrying` (`retrying.dfy`): `retry`, written as a method with a `while`
  loop.
  - The operation is a script: `op(n)` is the outcome of the n-th call.
  - The method returns the outcome and a trace of calls and delays.
  - It is proved against `Settled` (which attempt's outcome is returned)
    and `Attempts` (the trace of a given number of attempts).
- `Trigger` (`trigger.dfy`): the exported `trigger`, written as two methods.
  - `RunSteps` is the `try` block and `Trigger` adds its `catch`.
  - The world is a `Host`: the input values, the clock, the signer and a
    scripted App Store Connect `Client`.
  - Every call into `core` and into the App Store Connect client appends
    an `Event` to the trace. Reading the clock and calling the signer
    leave none.
  - Both methods are proved equal to the stage functions `Body`
    (`Authenticate`, `FetchWorkflow`, `ResolveReference`, `StartBuild`) and
    `TriggerSpec`.
  - The lemmas state properties of that specification about views of the
    trace (`Filter`): secret masking and remote calls in order
    (`Effects`), remote calls alone (`RemoteCalls`), outputs (`OutputsSet`)
    and failure reports (`FailureReports`).

## Model

| member | source | states |
|---|---|---|
| Errors.Message | action.js:68 | The message of a missing-parameter error starts with `Required parameter '` followed by the parameter's name; a thrown error's message is passed through unchanged. |
| AscToken.IssuedAt | action.js:34 | `iat` is the current time in whole seconds, rounded down: `iat * 1000 <= nowMs < iat * 1000 + 1000`. |
| AscToken.TokenRequest | action.js:23-41 | Fails exactly when one of keyId, issuerId or privateKey is empty, and then with the missing-credentials error. Otherwise: `iss` is the issuer id, `aud` is `appstoreconnect-v1`, `iat` is the current second, `exp = iat + 600`; the key id and `ES256` are the header options; the key is the normalised PEM and has no backslash-`n` pair left. |
| AscToken.GenerateAscJwt | action.js:23-46 | With a missing credential the result is the missing-credentials error, whatever the signer is. Otherwise it is the signer applied to the token request. |
| AscToken.NormalizeLeavesNoEscape | action.js:32 | After the replace, no backslash is followed by `n`. |
| AscToken.NormalizeUnchanged | action.js:32 | A key with no backslash-`n` pair is returned unchanged. |
| AscToken.NormalizeIdempotent | action.js:32 | Normalising twice gives the same key as normalising once. |
| AscToken.NormalizeUndoesEscape | action.js:31-32 | Normalising a key written on one line (every newline as backslash-`n`) gives back the multi-line key, when that key has no literal backslash-`n` of its own. |
| AscToken.NormalizeKey | action.js:32 | No contract of its own: a left-to-right scan that replaces each backslash-`n` pair with a newline. Its properties are in NormalizeLeavesNoEscape, NormalizeUnchanged, NormalizeIdempotent and NormalizeUndoesEscape. |
| AscToken.HasCredentials | action.js:24 | No contract of its own: the guard, all three credentials non-empty. TokenRequest and GenerateAscJwt state that failure happens exactly when it is false. |
| Retrying.Settled | action.js:50-57 | The attempt whose outcome `retry` returns is the first success, or the last attempt (`retries`) when every attempt fails; all earlier attempts failed. |
| Retrying.AttemptsShape | action.js:50-58 | Over n attempts: calls 0 .. n-1 at the even positions, a delay at each odd position, n calls, n - 1 delays, and the last event is a call. |
| Retrying.Retry | action.js:48-61 | The result is the outcome of the settled attempt. The trace is that attempt's calls with a delay between consecutive ones. The calls number the settled attempt + 1 and the delays the settled attempt. |
| Retrying.RetrySucceedsAfter | action.js:50-57 | k failures followed by a success, with k <= retries: the success is returned after exactly k + 1 calls and k delays. |
| Retrying.RetryExhausted | action.js:49-60 | When every attempt fails: retries + 1 calls, retries delays, none after the final call, and the final attempt's error is the one thrown. |
| Trigger.FirstFalsy | action.js:66-70 | The index of the first required parameter that is absent or empty: all parameters before it are truthy. It equals the list's length when there is none. |
| Trigger.Lift | action.js:97-100 | Each retry call becomes `getGitReference(repository.id, branchName)` and each wait a delay of the same length, position for position. |
| Trigger.ReadCredentials | action.js:11-17 | No contract of its own: the three `core.getInput` values, keyId, issuerId and key. Its use at line 73 is checked through RunSteps and MissingCredentialsFail. |
| Trigger.KeyMask | action.js:76 | No contract of its own: one `setSecret` of the key when it is non-empty, none otherwise. TriggerSucceeds and MissingCredentialsFail state it in the trace. |
| Trigger.Truthy | action.js:67 | No contract of its own: `params[name]` is present and not the empty string, the negation of `!params[param]`. FirstFalsy and MissingParameterFailsFast state which parameter it makes fail; the "## Left out" line on string-valued parameters says which falsy values it does not cover. |
| Trigger.Param | action.js:86-94 | No contract of its own: `params[name]`, the empty string when absent. WorkflowFetchFails, CreateBuildFails and TriggerSucceeds state that `getWorkflow` and `createBuild` get `xcodeCloudWorkflowId` and the lookup gets `gitBranchName`. |
| Trigger.Input | action.js:12-14 | No contract of its own: the value of `core.getInput(name)`, the empty string when the input is not set. MissingCredentialsFail and TriggerSucceeds state that the key read here is the one masked. |
| Trigger.LookupOp | action.js:98 | No contract of its own: the closure passed to `retry`, where attempt n asks the scripted client for `getGitReference(repository.id, branchName)`. LookupFailsRun, LookupResolvesRun, ExhaustedRun and TriggerSucceeds state the run for each way its attempts settle. |
| Trigger.Outputs | action.js:115-117 | No contract of its own: the three `core.setOutput` calls, `build_id`, `build_number` and `git_reference_id`, in this order. BodyReports and TriggerReports state they are set exactly on success, and TriggerSucceeds states their values. |
| Trigger.Body | action.js:64-70 | No contract of its own: the `try` block as a specification, validation first, then Authenticate. RunSteps is proved equal to it, and BodyReports states its reports. |
| Trigger.Authenticate | action.js:73-85 | No contract of its own: the input reads, the key's masking, the token and its masking, then FetchWorkflow. MissingCredentialsFail and SigningFails state its failures. |
| Trigger.FetchWorkflow | action.js:86-95 | No contract of its own: one `getWorkflow`, then ResolveReference with the repository id. WorkflowFetchFails states its failure. |
| Trigger.ResolveReference | action.js:97-100 | No contract of its own: the lookup under `retry(2, 700)`, as Settled and Attempts describe it, then StartBuild. LookupFailsRun and LookupResolvesRun state its two outcomes. |
| Trigger.StartBuild | action.js:103-123 | No contract of its own: one `createBuild`, then the three outputs and the record. CreateBuildFails and TriggerSucceeds state its outcomes. |
| Trigger.TriggerSpec | action.js:124-128 | No contract of its own: the `catch`, one prefixed `setFailed` on an error. Trigger is proved equal to it, and TriggerReports states its reports. |
| Trigger.RunSteps | action.js:64-123 | The `try` block, step by step, returns what the stage functions `Body` specify: the result or the error thrown, and the trace up to it. |
| Trigger.Trigger | action.js:63-129 | The whole run equals `TriggerSpec`. On an error, the last event is `setFailed` with "❌ " and the message, that is the only failure report, and no output is set. On success, the outputs are exactly the three of the result and nothing is reported. |
| Trigger.BodyReports | action.js:64-123 | The `try` block never reports a failure; it sets the three outputs only when it succeeds, with the returned values. |
| Trigger.TriggerReports | action.js:114-128 | After the `catch`: an error is reported exactly once, last, with the "❌ " prefix and the rethrown error's message; outputs are set on success only. |
| Trigger.LookupTrace | action.js:97-100 | The lookup under `retry` alternates `getGitReference(repository.id, branchName)` with 700 ms delays and ends with a call. |
| Trigger.MissingParameterFailsFast | action.js:66-70 | A falsy required parameter fails the run with an error naming the first such parameter in list order. `setFailed` is the only event: no input is read, no secret masked, no remote call made. |
| Trigger.MissingCredentialsFail | action.js:73-78 | A missing credential fails after the three input reads and the key's masking (when the key is set), with the missing-credentials message; no token is masked and no remote call is made. |
| Trigger.SigningFails | action.js:73-80 | A signer that throws fails the run with its own error before the token is masked and before any remote call. |
| Trigger.WorkflowFetchFails | action.js:85-87 | A failed `getWorkflow` is rethrown after one call; no lookup and no build follow. |
| Trigger.LookupFailsRun | action.js:97-100 | When the lookup settles on a failed attempt, the `try` block throws that error right after the lookup's calls and delays. |
| Trigger.LookupResolvesRun | action.js:97-104 | When the lookup settles on a reference, the `try` block goes on to `createBuild` with that reference. |
| Trigger.ExhaustedRun | action.js:97-100 | When all three lookups fail, the run ends with those three calls and two delays, then the report of the third attempt's error. |
| Trigger.ReferenceLookupExhausted | action.js:94-107 | When all three lookups fail, the remote calls are `getWorkflow` followed by three lookups with two 700 ms delays between them. The error of the third attempt is rethrown, `createBuild` is never called, no output is set, and `setFailed` comes last. |
| Trigger.FailedBuildRun | action.js:103-107 | A failed `createBuild` comes after the lookup's calls and delays and the one `info` before it, and is followed only by its report. |
| Trigger.CreateBuildFails | action.js:103-107 | A failed `createBuild` is rethrown after one call. The remote calls are `getWorkflow`, the lookup and `createBuild`, in this order; no output is set and `setFailed` comes last. |
| Trigger.SucceedsRun | action.js:73-123 | The run in which every step succeeds: its result record and its whole trace. |
| Trigger.TriggerSucceeds | action.js:73-123 | In a successful run the masking and remote calls come in this order: the key's masking, the token's masking, `getWorkflow(workflowId)`, the lookup (2k + 1 events: `getGitReference(repository.id, branchName)` at every even position, a 700 ms delay at every odd one, so k + 1 calls and k delays), then `createBuild(workflowId, referenceId)`. The outputs and the returned record hold the build's id and number and the resolved reference; nothing is reported as failed. The key is always masked here, because a token is only built when every credential is set. |

## Left out

- `jwt.sign` with ES256 is not modelled. The signer is a function the host
  supplies. Given the claims, the normalised key, `ES256` and the key id,
  it may return a token or throw.
- The `@actions/core` calls are not modelled as I/O. They are trace
  events, and the text of the `info` log lines is dropped.
- The values given to the inputs are taken as what `core.getInput`
  returns. Its trimming of whitespace is not modelled.
- `./app-store-connect` and `./constants` are not part of this model.
  - The client is a scripted oracle.
  - `BASE_URL` and the token are not passed to it.
  - `REQUIRED_PARAMETERS` is an abstract list of names.
- Action parameters are strings. An absent parameter reads as the empty
  string, which is falsy like `undefined`. Falsy non-string values such
  as `0` are not modelled.
- A workflow always has a repository here. The `TypeError` that a missing
  `repository` would raise is not modelled.
- `setTimeout`, promises and `async` are not modelled. There is no
  concurrency, and a delay is an event carrying its length.
- `Date.now()` is a parameter in milliseconds.
- `index.js` is not part of this model. It reads two inputs and forwards
  errors to `setFailed`.
- Retrying.Retry: `retries` is a natural number. With a negative count the
  source makes no attempt and throws `undefined`; that case is not
  modelled.
- `retry`'s default options (2 retries, 500 ms) are not modelled, because
  `trigger` always passes its own (2, 700).
- Errors.Message: for a missing parameter the contract states only the
  message's prefix up to the parameter's name. The closing words are given
  by the function's definition.
- "The same error object is rethrown" is modelled as the same error value.
