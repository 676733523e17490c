/** The sign-in component of web/src/App.js: provider calls are awaited
    without a timeout, the reCAPTCHA verifier is created only when none
    exists, and the global error handler writes a separate `errorMessage`. */
module WebApp {
  import opened Js
  import opened Provider
  import opened Messages

  /** The component's React state together with the two window globals it
      uses (`window.recaptchaVerifier`, `window.confirmationResult`). */
  datatype Session = Session(
    phone: string,
    otp: string,
    step: int,                          // 0 or 1, see Valid
    message: string,
    errorMessage: string,
    backendResp: Json,                  // JNull until a backend answer arrives
    showRecaptcha: bool,
    confirmation: Option<Confirmation>, // window.confirmationResult
    verifier: Option<Widget>,           // window.recaptchaVerifier
    live: set<Widget>,                  // verifiers constructed so far and not cleared
    created: nat)                       // verifiers constructed so far

  /** What can happen to the component. The outcome of an asynchronous
      operation arrives in one event together with its start. */
  datatype Event =
    | EditPhone(value: string)
    | EditOtp(value: string)
    | ToggleRecaptcha(show: bool)
    | Send(sent: Outcome<Confirmation>)
    | Verify(verified: Outcome<Json>)
    | Captcha(signal: CaptchaSignal)
    | GlobalError(reasonMessage: string, eventMessage: string)

  /** The state of the first render, before any effect has run. */
  const Initial := Session(DefaultPhone, "", 0, "", "", JNull, true, None, None, {}, 0)

  /** The step is 0 or 1, the live verifiers are exactly the current one, and
      the counter is ahead of its id. */
  predicate Valid(s: Session) {
    && (s.step == 0 || s.step == 1)
    && s.live == Held(s.verifier)
    && (s.verifier.Some? ==> s.verifier.value.id < s.created)
  }

  /** Nothing about the verifiers changes. */
  predicate SameWidgets(s: Session, r: Session) {
    r.showRecaptcha == s.showRecaptcha && r.verifier == s.verifier && r.live == s.live && r.created == s.created
  }

  /** `initializeRecaptcha`: construct and render a verifier only when
      `window.recaptchaVerifier` is unset; the form is never reset. */
  function InitializeRecaptcha(s: Session): (r: Session)
    ensures r.verifier.Some?
    ensures s.verifier.Some? ==> r == s
    ensures s.verifier.None? ==>
              && r.verifier == Some(Widget(s.created, SizeFor(s.showRecaptcha)))
              && r.live == s.live + {r.verifier.value}
              && r.created == s.created + 1
    ensures r.phone == s.phone && r.otp == s.otp && r.step == s.step && r.message == s.message
    ensures r.errorMessage == s.errorMessage && r.backendResp == s.backendResp
    ensures r.confirmation == s.confirmation && r.showRecaptcha == s.showRecaptcha
    ensures Valid(s) ==> Valid(r)
  {
    if s.verifier.Some? then s
    else
      var w := Widget(s.created, SizeFor(s.showRecaptcha));
      s.(verifier := Some(w), live := s.live + {w}, created := s.created + 1)
  }

  /** The state once the mount effects have run: the initial form and one
      visible verifier. */
  function Mounted(): (r: Session)
    ensures Valid(r)
    ensures r.phone == DefaultPhone && r.otp == "" && r.step == 0 && r.backendResp == JNull
    ensures r.message == "" && r.errorMessage == "" && r.confirmation == None
    ensures r.verifier == Some(Widget(0, Normal)) && r.live == {Widget(0, Normal)}
  {
    InitializeRecaptcha(Initial)
  }

  /** Flipping the "Show reCAPTCHA widget" checkbox re-runs the effect, which
      does nothing once a verifier exists. */
  function ToggleRecaptchaTo(s: Session, show: bool): (r: Session)
    ensures r.showRecaptcha == show
    ensures r.(showRecaptcha := s.showRecaptcha) == s || s.verifier.None?
    ensures s.verifier.Some? ==> r.verifier == s.verifier && r.live == s.live
    ensures Valid(s) ==> Valid(r)
  {
    if show == s.showRecaptcha then s
    else InitializeRecaptcha(s.(showRecaptcha := show))
  }

  /** `sendOTP`: the message is cleared, then the sign-in settles. Success
      stores the confirmation and moves to step 1; a failure only sets the
      mapped message. */
  function SendOTP(s: Session, sent: Outcome<Confirmation>): (r: Session)
    ensures r.phone == s.phone && r.otp == s.otp && r.backendResp == s.backendResp
    ensures r.errorMessage == s.errorMessage && SameWidgets(s, r)
    ensures sent.Resolved? ==> r.step == 1 && r.confirmation == Some(sent.value) && r.message == OtpSent
    ensures sent.Rejected? ==>
              r.step == s.step && r.confirmation == s.confirmation && r.message == HandleErrorTable(sent.error)
    ensures r.message != ""
  {
    var cleared := s.(message := "");
    match sent
    case Resolved(h) => cleared.(confirmation := Some(h), step := 1, message := OtpSent)
    case Rejected(e) => cleared.(message := HandleErrorTable(e))
  }

  /** `verifyOTP`: the message is cleared; without a stored confirmation the
      call throws at once; otherwise the outcome covers confirm, the id token,
      the backend request and its JSON decoding, and only a full success
      stores the backend's answer. */
  function VerifyOTP(s: Session, verified: Outcome<Json>): (r: Session)
    ensures r.phone == s.phone && r.otp == s.otp && r.step == s.step && r.confirmation == s.confirmation
    ensures r.errorMessage == s.errorMessage && SameWidgets(s, r)
    ensures s.confirmation.None? ==>
              r.backendResp == s.backendResp && r.message == MissingConfirmation.message
    ensures s.confirmation.Some? && verified.Resolved? ==>
              r.backendResp == verified.value && r.message == SignedIn
    ensures s.confirmation.Some? && verified.Rejected? ==>
              r.backendResp == s.backendResp && r.message == HandleErrorTable(verified.error)
    ensures r.message != ""
  {
    var cleared := s.(message := "");
    if s.confirmation.None? then cleared.(message := HandleErrorTable(MissingConfirmation))
    else
      match verified
      case Resolved(data) => cleared.(backendResp := data, message := SignedIn)
      case Rejected(e) => cleared.(message := HandleErrorTable(e))
  }

  /** `handleGlobalError` writes `errorMessage` and nothing else; the status
      message is left alone. */
  function OnGlobalError(s: Session, reasonMessage: string, eventMessage: string): (r: Session)
    ensures r.(errorMessage := s.errorMessage) == s
    ensures r.errorMessage == GlobalErrorText(reasonMessage, eventMessage)
  {
    s.(errorMessage := GlobalErrorText(reasonMessage, eventMessage))
  }

  /** One event applied to the session. */
  function Step(s: Session, e: Event): (r: Session)
    ensures Valid(s) ==> Valid(r)
    ensures Valid(s) ==> r.step >= s.step
  {
    match e
    case EditPhone(v) => s.(phone := v)
    case EditOtp(v) => s.(otp := v)
    case ToggleRecaptcha(show) => ToggleRecaptchaTo(s, show)
    case Send(sent) => SendOTP(s, sent)
    case Verify(verified) => VerifyOTP(s, verified)
    case Captcha(signal) => s.(message := CaptchaText(signal))
    case GlobalError(reason, msg) => OnGlobalError(s, reason, msg)
  }

  /** The events applied in order. */
  function Run(s: Session, events: seq<Event>): (r: Session)
    ensures Valid(s) ==> Valid(r)
    decreases |events|
  {
    if events == [] then s else Run(Step(s, events[0]), events[1..])
  }

  /** Whether a sign-in succeeded somewhere in `events`. */
  predicate SomeSendSucceeds(events: seq<Event>) {
    exists i :: 0 <= i < |events| && events[i].Send? && events[i].sent.Resolved?
  }

  /** Whether a full verification succeeded somewhere in `events`. */
  predicate SomeVerifySucceeds(events: seq<Event>) {
    exists i :: 0 <= i < |events| && events[i].Verify? && events[i].verified.Resolved?
  }

  /** The confirmation of the last successful sign-in in `events`, or `c`. */
  function LastConfirmation(c: Option<Confirmation>, events: seq<Event>): (last: Option<Confirmation>)
    decreases |events|
  {
    if events == [] then c
    else
      var e := events[|events| - 1];
      if e.Send? && e.sent.Resolved? then Some(e.sent.value)
      else LastConfirmation(c, events[..|events| - 1])
  }

  /** Running a trace extended by one event is running the trace, then
      stepping. */
  lemma {:induction false} RunSnoc(s: Session, events: seq<Event>, e: Event)
    ensures Run(s, events + [e]) == Step(Run(s, events), e)
    decreases |events|
  {
    if events == [] {
      assert [e][1..] == [];
    } else {
      assert (events + [e])[1..] == events[1..] + [e];
      RunSnoc(Step(s, events[0]), events[1..], e);
    }
  }

  /** The stored confirmation is the one of the last successful sign-in; a
      verification never clears it. */
  lemma {:induction false} ConfirmationIsLastSent(s: Session, events: seq<Event>)
    ensures Run(s, events).confirmation == LastConfirmation(s.confirmation, events)
    decreases |events|
  {
    if events != [] {
      var init, e := events[..|events| - 1], events[|events| - 1];
      assert events == init + [e];
      RunSnoc(s, init, e);
      ConfirmationIsLastSent(s, init);
    }
  }

  /** Nothing, not even a reCAPTCHA toggle, moves the step back: it is 1
      exactly when some sign-in succeeded, and unchanged otherwise. */
  lemma {:induction false} StepOnlyMovesForward(s: Session, events: seq<Event>)
    ensures Run(s, events).step == if SomeSendSucceeds(events) then 1 else s.step
    decreases |events|
  {
    if events != [] {
      var t := events[1..];
      assert forall i :: 0 <= i < |t| ==> t[i] == events[i + 1];
      StepOnlyMovesForward(Step(s, events[0]), t);
      if SomeSendSucceeds(t) {
        var i :| 0 <= i < |t| && t[i].Send? && t[i].sent.Resolved?;
        assert events[i + 1] == t[i];
      }
      if SomeSendSucceeds(events) && !(events[0].Send? && events[0].sent.Resolved?) {
        var i :| 0 <= i < |events| && events[i].Send? && events[i].sent.Resolved?;
        assert t[i - 1] == events[i];
      }
    }
  }

  /** Only a successful verification writes the backend answer. */
  lemma {:induction false} BackendOnlyFromVerify(s: Session, events: seq<Event>)
    requires !SomeVerifySucceeds(events)
    ensures Run(s, events).backendResp == s.backendResp
    decreases |events|
  {
    if events != [] {
      var t := events[1..];
      assert !SomeVerifySucceeds(t) by {
        forall i | 0 <= i < |t|
          ensures !(t[i].Verify? && t[i].verified.Resolved?)
        {
          assert t[i] == events[i + 1];
        }
      }
      BackendOnlyFromVerify(Step(s, events[0]), t);
    }
  }

  /** Once a verifier exists it is never replaced or cleared, whatever the
      checkbox does. */
  lemma {:induction false} VerifierNeverReplaced(s: Session, events: seq<Event>)
    requires s.verifier.Some?
    ensures Run(s, events).verifier == s.verifier
    ensures Run(s, events).live == s.live
    decreases |events|
  {
    if events != [] {
      VerifierNeverReplaced(Step(s, events[0]), events[1..]);
    }
  }

  /** After mount the verifier is the first one built, with the `normal`
      size, for the component's whole life. */
  lemma MountedVerifierKept(events: seq<Event>)
    ensures Run(Mounted(), events).verifier == Some(Widget(0, Normal))
    ensures Run(Mounted(), events).live == {Widget(0, Normal)}
  {
    VerifierNeverReplaced(Mounted(), events);
  }

  /** The happy path: mount, a successful sign-in, a successful
      verification. */
  lemma SignInScenario(h: Confirmation, data: Json)
    ensures var r := Run(Mounted(), [Send(Resolved(h)), Verify(Resolved(data))]);
            && r.step == 1 && r.message == SignedIn && r.backendResp == data
            && r.confirmation == Some(h) && r.phone == DefaultPhone && r.errorMessage == ""
  {
    var events := [Send(Resolved(h)), Verify(Resolved(data))];
    var sent := Step(Mounted(), events[0]);
    assert events[1..] == [Verify(Resolved(data))];
    assert Run(Mounted(), events) == Run(sent, [Verify(Resolved(data))]);
    assert Run(sent, [Verify(Resolved(data))]) == Run(Step(sent, Verify(Resolved(data))), []);
  }
}
