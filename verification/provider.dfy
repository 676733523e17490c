/** Opaque handles handed out by the identity provider's client SDK. */
module Provider {

  /** The `confirmationResult` returned by a successful phone sign-in. */
  datatype Confirmation = Confirmation(id: nat)

  /** The `size` option of a reCAPTCHA verifier. */
  datatype Size = Normal | Invisible

  /** A reCAPTCHA verifier instance; `id` tells apart instances built with
      the same options. */
  datatype Widget = Widget(id: nat, size: Size)

  /** Which of a verifier's callbacks fired: `callback`, `expired-callback`
      or `error-callback`. */
  datatype CaptchaSignal = Solved | Expired | Errored

  /** `showRecaptcha ? 'normal' : 'invisible'`. */
  function SizeFor(show: bool): (r: Size)
    ensures r == Normal <==> show
  {
    if show then Normal else Invisible
  }
}
