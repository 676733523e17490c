/** The user-visible strings of the sign-in component and the two variants
    of its error-to-message mapping (`handleError`). */
module Messages {
  import opened Js
  import opened Provider

  const NetworkCode := "auth/network-request-failed"
  const TimeoutCode := "timeout"

  const NetworkMessage := "Network error: Please check your internet connection and try again."
  const TimeoutMessage := "Timeout: The request took too long. Please try again."
  const Fallback := "An unexpected error occurred."

  const OtpSent := "OTP sent!"
  const SignedIn := "Signed in!"
  const CaptchaSolved := "reCAPTCHA Success!"
  const CaptchaExpired := "reCAPTCHA expired. Please complete the challenge again."
  const CaptchaErrored := "reCAPTCHA error occurred."

  /** The message each reCAPTCHA callback writes. */
  function CaptchaText(signal: CaptchaSignal): (r: string)
    ensures r != ""
  {
    match signal
    case Solved => CaptchaSolved
    case Expired => CaptchaExpired
    case Errored => CaptchaErrored
  }

  const GlobalPrefix := "An unexpected error occurred: "
  const UnknownError := "Unknown error"

  /** The phone number the form starts from (and, in one copy, is reset to). */
  const DefaultPhone := "+16505551234"

  /** The rejection value of the timeout promise that races each provider call. */
  const TimeoutRejection := JsError(TimeoutCode, "Request timed out. Please try again.")

  /** The TypeError thrown when `window.confirmationResult` is undefined and
      `.confirm` is read from it (the engine's wording; it carries no code). */
  const MissingConfirmation := JsError("", "Cannot read properties of undefined (reading 'confirm')")

  /** `handleError` as an if/else-if chain on `error.code`. */
  function HandleErrorChain(e: JsError): (r: string)
    ensures r != ""
    ensures e.code == NetworkCode ==> r == NetworkMessage
    ensures e.code == TimeoutCode ==> r == TimeoutMessage
    ensures e.code != NetworkCode && e.code != TimeoutCode ==>
              (e.message != "" ==> r == e.message) && (e.message == "" ==> r == Fallback)
  {
    if e.code == NetworkCode then NetworkMessage
    else if e.code == TimeoutCode then TimeoutMessage
    else Or(e.message, Fallback)
  }

  /** The `errorMessages` object literal, restricted to its own two keys. */
  const ErrorMessages: map<string, string> :=
    map[NetworkCode := NetworkMessage, TimeoutCode := TimeoutMessage]

  /** Property lookup on an object: a missing key reads as undefined, which is
      falsy like the empty string. */
  function Lookup(table: map<string, string>, key: string): (r: string)
    ensures key in table ==> r == table[key]
    ensures key !in table ==> r == ""
  {
    if key in table then table[key] else ""
  }

  /** `handleError` as `errorMessages[error.code] || error.message || fallback`. */
  function HandleErrorTable(e: JsError): (r: string)
    ensures r != ""
    ensures e.code in ErrorMessages ==> r == ErrorMessages[e.code]
    ensures e.code !in ErrorMessages ==>
              (e.message != "" ==> r == e.message) && (e.message == "" ==> r == Fallback)
  {
    Or(Or(Lookup(ErrorMessages, e.code), e.message), Fallback)
  }

  /** The text of the global handler for `error` and `unhandledrejection`
      events: the prefix, then the first non-empty of the rejection reason's
      message, the event's message and a fixed fallback. */
  function GlobalErrorText(reasonMessage: string, eventMessage: string): (r: string)
    ensures |r| > |GlobalPrefix| && r[..|GlobalPrefix|] == GlobalPrefix
    ensures reasonMessage != "" ==> r[|GlobalPrefix|..] == reasonMessage
    ensures reasonMessage == "" && eventMessage != "" ==> r[|GlobalPrefix|..] == eventMessage
    ensures reasonMessage == "" && eventMessage == "" ==> r[|GlobalPrefix|..] == UnknownError
  {
    GlobalPrefix + Or(Or(reasonMessage, eventMessage), UnknownError)
  }

  /** The two `handleError` variants give the same message for every error. */
  lemma HandleErrorVariantsAgree(e: JsError)
    ensures HandleErrorTable(e) == HandleErrorChain(e)
  {
  }

  /** The network code fixes the message, whatever text the error carries. */
  lemma NetworkCodeIgnoresMessage(m1: string, m2: string)
    ensures HandleErrorChain(JsError(NetworkCode, m1)) == HandleErrorChain(JsError(NetworkCode, m2)) == NetworkMessage
  {
  }

  /** The timeout promise's rejection maps to the timeout message. */
  lemma TimeoutRejectionShowsTimeoutMessage()
    ensures HandleErrorChain(TimeoutRejection) == TimeoutMessage
    ensures HandleErrorTable(TimeoutRejection) == TimeoutMessage
  {
  }

  /** Outside the two reserved codes the mapping ignores the code entirely. */
  lemma OtherCodesDependOnMessageOnly(c1: string, c2: string, m: string)
    requires c1 != NetworkCode && c1 != TimeoutCode
    requires c2 != NetworkCode && c2 != TimeoutCode
    ensures HandleErrorChain(JsError(c1, m)) == HandleErrorChain(JsError(c2, m))
  {
  }
}
