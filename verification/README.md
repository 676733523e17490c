# Phone sign-in state machine

A Dafny model of the browser component of a phone-number sign-in client. The user
enters a phone number, a reCAPTCHA verifier is shown, the identity provider sends a
one-time code (OTP), the user confirms it, and the resulting id token is posted to a
backend whose JSON answer is displayed. The component exists in two divergent
copies, `web./src/App.js` and `web/src/App.js`. Both are modelled side by side.

- `Js`: optional globals, promise outcomes, JSON values, thrown errors, and JavaScript
  `||` on strings (the empty string is falsy, and a missing `code` or `message` reads as `""`).
- `Provider`: the opaque handles of the identity provider's SDK (confirmation, verifier).
- `Messages`: every user-visible string, both variants of `handleError` (an if/else-if
  chain and an object-literal lookup), and the text of the global error handler.
- `WebDotApp` (web./): the sign-in and confirm calls are raced against a 150-second
  timer; the id-token, fetch and JSON steps are awaited without one.
  Re-initialising reCAPTCHA clears the old verifier and resets the form. The global
  error handler writes the status message.
- `WebApp` (web/): no timer. The verifier is created only when none exists. The
  global error handler writes a separate `errorMessage`.
- `Divergence`: the copies handle every event except the checkbox toggle and the
  global error alike, and they differ on those two. The third difference, the timer
  that only web./ has, changes which events can arrive, not how an arrived one is
  handled (see "Left out").

Each copy is a pure `Step(session, event)` function plus `Run` over event traces.
A session holds the React state and the two window globals the code uses:
`window.recaptchaVerifier` and `window.confirmationResult`. It also holds the set of
verifiers that have been constructed and not cleared, plus a counter that gives each
new verifier a fresh identity. Asynchronous work appears only as its result:
`Send(Resolved(confirmation))`, `Send(Rejected(error))`, `Verify(Resolved(json))` and
`Verify(Rejected(error))`. A timed-out call in web./ is `Rejected(TimeoutRejection)`,
the object the timer rejects with. A rejected verification stands for a failure of
any step in the try block: confirm, getIdToken, fetch or JSON decoding. If no
confirmation is stored, reading `.confirm` throws at once. That case is modelled
whatever outcome the event carries.

In several places the code promises less than a sign-in flow usually does. The model follows the code:
- The confirmation is not single-use. It stays stored after a verification attempt
  and is replaced only by the next successful sign-in (`ConfirmationIsLastSent`).
- There is no guard against overlapping calls, and the model adds none.
- Backend and JSON failures go through `handleError` into the status message. They
  do not go through the global channel.
- In web/, toggling the checkbox does not rebuild the verifier. The first verifier,
  built with size `normal`, is kept for the component's whole life
  (`WebApp.MountedVerifierKept`).
- In web./, a throw while the verifier is being built goes to `handleError`. The
  clear and the form reset before it have already happened; `handleError` then sets
  only the status message.

## Model

| member | source | states |
|---|---|---|
| `Messages.HandleErrorChain` | web./src/App.js:67-75 | The network code gives the fixed network string and the timeout code gives the fixed timeout string. Any other code gives the error's message if it is non-empty, else the fallback. The result is never empty. |
| `Messages.HandleErrorTable` | web/src/App.js:50-56 | A code that is a key of the two-entry table gives that entry. Any other code gives the message if it is non-empty, else the fallback. The result is never empty. |
| `Messages.HandleErrorVariantsAgree` | web/src/App.js:50-56 | The table variant and the if/else-if variant give the same message for every code and message. |
| `Messages.NetworkCodeIgnoresMessage` | web./src/App.js:68-69 | With code `auth/network-request-failed`, the message is the network string whatever text the error carries. |
| `Messages.TimeoutRejectionShowsTimeoutMessage` | web./src/App.js:119-123 | The timer's rejection object (code `timeout`) maps to the timeout string under both variants. |
| `Messages.OtherCodesDependOnMessageOnly` | web./src/App.js:72-73 | Outside the two reserved codes, the code has no influence on the message. |
| `Messages.GlobalErrorText` | web./src/App.js:22 | The text starts with `An unexpected error occurred: `. The rest is the reason's message if it is non-empty, else the event's message if that is non-empty, else `Unknown error`. |
| `Messages.CaptchaText` | web./src/App.js:44-55 | Each of the three reCAPTCHA callbacks writes a non-empty status message. |
| `Provider.SizeFor` | web./src/App.js:43 | The verifier's size is `normal` exactly when the widget is shown, and `invisible` otherwise. |
| `WebDotApp.InitializeRecaptcha` | web./src/App.js:34-61 | `clear()` is called only when a verifier is set, so without one the form is always reset. A synchronous throw from clear() changes only the message, which becomes the mapped error. Otherwise phone becomes `+16505551234`, otp `""` and step 0, and the old verifier is no longer live. A throw from the constructor keeps the stale verifier and leaves none live. Without a constructor throw, a fresh verifier with the current size becomes the only live one. A synchronous throw from render() sets the mapped message. Backend answer and confirmation never change. Validity is preserved. |
| `WebDotApp.Mounted` | web./src/App.js:12-62 | After the mount effect, phone is `+16505551234`, otp is `""`, step is 0, and there is no backend answer and no confirmation, whatever throws. Unless the constructor or render() throws, the message is empty and verifier 0 of size `normal` is the only live one; if one of them throws, the message is the mapped error. |
| `WebDotApp.ToggleRecaptchaTo` | web./src/App.js:62-65 | Setting the checkbox to its current value changes nothing. Flipping it without a throw resets phone, otp and step and makes a fresh verifier of the new size the only live one. Message, backend answer and confirmation are kept. |
| `WebDotApp.SendOTP` | web./src/App.js:77-94 | Success sets step 1, stores the confirmation and shows `OTP sent!`. A failure, including the timeout, leaves step and confirmation alone and shows exactly the mapped message. Phone, otp, backend answer and verifiers never change. |
| `WebDotApp.VerifyOTP` | web./src/App.js:96-117 | Without a stored confirmation, the message is the TypeError's and nothing else changes. With one, success stores the JSON answer and shows `Signed in!`, and a failure keeps the answer and shows the mapped message. Step, confirmation, phone, otp and verifiers never change. |
| `WebDotApp.OnGlobalError` | web./src/App.js:20-23 | Only the status message changes, and it becomes the global error text. |
| `WebDotApp.Step` | web./src/App.js:33-117 | Every event preserves validity: step in {0,1}, at most the current verifier live, fresh ids. Only a resolved verification can change the backend answer. |
| `WebDotApp.Run` | web./src/App.js:20-117 | Validity holds along every trace. |
| `WebDotApp.ConfirmationIsLastSent` | web./src/App.js:77-117 | After any trace, the confirmation is the one from the last successful sign-in, or the starting one if there was none. |
| `WebDotApp.StepOnlyMovesForward` | web./src/App.js:88-90 | On a trace without checkbox toggles, the step is 1 exactly when some sign-in succeeded, and is unchanged otherwise. |
| `WebDotApp.BackendOnlyFromVerify` | web./src/App.js:111-113 | A trace without a successful verification leaves the backend answer unchanged. |
| `WebDotApp.AtMostOneLiveWidget` | web./src/App.js:36-42 | From mount on, at most one verifier is ever live. |
| `WebDotApp.ToggleBackAndForth` | web./src/App.js:33-65 | On the phone form, toggling away and back with re-initialisations that do not throw leaves exactly one live verifier: a fresh one with the original size. The form is reset. |
| `WebDotApp.TimedOutSend` | web./src/App.js:84-92 | A sign-in that loses the race shows the timeout message and keeps step and confirmation. |
| `WebDotApp.TimedOutVerify` | web./src/App.js:98-115 | With a stored confirmation, a verification that loses the race shows the timeout message and keeps the backend answer and the step. |
| `WebDotApp.SignInScenario` | web./src/App.js:77-117 | Mount, a successful sign-in, then a successful verification give step 1, `Signed in!`, the backend's JSON and the stored confirmation. |
| `WebApp.InitializeRecaptcha` | web/src/App.js:35-45 | A verifier exists afterwards. An existing one leaves the state untouched. Otherwise a fresh verifier with the current size is added. Form, messages, backend answer and confirmation are never touched. |
| `WebApp.Mounted` | web/src/App.js:12-48 | Initial phone `+16505551234`, otp `""`, step 0, empty messages, no backend answer, no confirmation, and verifier 0 of size `normal` live. |
| `WebApp.ToggleRecaptchaTo` | web/src/App.js:34-48 | Once a verifier exists, a toggle changes only the checkbox value and keeps the verifier. |
| `WebApp.SendOTP` | web/src/App.js:58-70 | Success sets step 1, stores the confirmation and shows `OTP sent!`. A failure leaves step and confirmation alone and shows exactly the table-mapped message. `errorMessage` is untouched. |
| `WebApp.VerifyOTP` | web/src/App.js:72-89 | Without a confirmation, the message is the TypeError's. With one, success stores the JSON and shows `Signed in!`, and a failure keeps the answer and shows the mapped message. Step and confirmation never change. |
| `WebApp.OnGlobalError` | web/src/App.js:21-24 | Only `errorMessage` changes, and it becomes the global error text. The status message and all else stay. |
| `WebApp.Step` | web/src/App.js:34-89 | Every event preserves validity: step in {0,1}, live verifiers exactly the current one. The step never decreases. |
| `WebApp.Run` | web/src/App.js:21-89 | Validity holds along every trace. |
| `WebApp.ConfirmationIsLastSent` | web/src/App.js:58-89 | After any trace, the confirmation is the one from the last successful sign-in, or the starting one. |
| `WebApp.StepOnlyMovesForward` | web/src/App.js:63-66 | On every trace, toggles included, the step is 1 exactly when some sign-in succeeded, and is unchanged otherwise. |
| `WebApp.BackendOnlyFromVerify` | web/src/App.js:83-85 | A trace without a successful verification leaves the backend answer unchanged. |
| `WebApp.VerifierNeverReplaced` | web/src/App.js:36-44 | Once a verifier exists, no trace replaces or clears it. |
| `WebApp.MountedVerifierKept` | web/src/App.js:34-48 | After mount, the verifier is the first one built, with size `normal`, after every trace. |
| `WebApp.SignInScenario` | web/src/App.js:58-89 | Mount, a successful sign-in, then a successful verification give step 1, `Signed in!`, the backend's JSON and no error message. |
| `Divergence.StepsAgree` | web/src/App.js:58-89 | On equal shared state, any event other than a toggle or a global error changes phone, otp, step, message, backend answer and confirmation identically in both copies. |
| `Divergence.RunsAgree` | web/src/App.js:58-89 | The same holds along every trace of such events. |
| `Divergence.MountedViewsAgree` | web/src/App.js:12-18 | Once mounted, both copies hold the same phone, otp, step, message, backend answer and confirmation. |
| `Divergence.MountedRunsAgree` | web/src/App.js:58-89 | From mount, every trace of shared events leaves both copies with the same shared state. |
| `Divergence.GlobalErrorDiverges` | web/src/App.js:22-24 | A global error rewrites the status message in web./. In web/ it leaves the shared state as it was and writes `errorMessage`. |
| `Divergence.ToggleDiverges` | web/src/App.js:34-48 | On the phone form, a flip of the checkbox whose re-initialisation does not throw resets the form and installs a new verifier in web./. In web/ it leaves the shared state and the verifier as they were. |

## Left out

- The Go backend (main.go) is not part of this model. It answers 500, 400 or 401 with a plain-text reason of its own choosing, and 200 with a JSON object. The plain-text replies make `response.json()` reject, which appears here as a `Rejected` verification.
- The missing timer in web/ changes which events arrive, not how they are handled. Both copies take the same outcome events, so the model lets web/ receive a `timeout`-coded rejection that web/src/App.js never builds. In web/ a hanging sign-in or confirm never settles and leaves the message `""`; in web./ it settles after 150 seconds with the timeout message.
- The `Promise.race` and `setTimeout` machinery is timing, so only its result is modelled: a `timeout`-coded rejection. A consequence of the timers is therefore missing. In web./, verifying without a stored confirmation creates the timer but never hands it to `Promise.race`. About 150 seconds later its rejection would reach the global handler.
- Each call's start and its settlement are one event. Events that arrive while a call is pending are not modelled between the two. Examples are a reCAPTCHA callback during an invisible challenge, a toggle, or a second click.
- The Firebase client SDK, `fetch` and JSON parsing are foreign code. They appear only as outcomes carrying opaque handles or JSON values. Callbacks of an already-cleared verifier are not modelled.
- JSX rendering is not modelled. That includes the rule that the send button is shown only at step 0 and the verify button only at step 1. The handlers themselves never look at the step, and neither does the model. In web./ the `recaptcha-container` element also exists only at step 0, so a toggle at step 1 builds a verifier with no mount point; whether the constructor then throws is SDK behaviour, and the model expresses it as `ConstructorThrows`.
- `console.*` logging and the registration and removal of window listeners are plumbing, so they are left out.
- In web/, a synchronous throw from the verifier's constructor is not caught. It would escape the React effect, so web/'s `InitializeRecaptcha` always succeeds.
- Neither copy awaits `render()`, which returns a promise. A rejection of that promise skips the try/catch and reaches the global handler, which writes `message` in web./ and `errorMessage` in web/. The model expresses it as a toggle followed by a `GlobalError` event. `RenderThrows` in web./ covers only a synchronous throw.
- JavaScript prototype keys such as `constructor` are ignored in the error table. Non-string `code` or `message` values are also not modelled. A missing field is the empty string.
- `MissingConfirmation` uses V8's wording for the TypeError. Other engines word it differently, but it is non-empty and carries no code in all of them.
- Messages.CaptchaText: its contract states only that each reCAPTCHA callback writes a non-empty message. The three strings are given by its body.
