/** The sign-in component of web./src/App.js: every timed provider call is
    raced against a timeout, each reCAPTCHA re-initialisation clears the old
    verifier and resets the form, and the global error handler writes the
    ordinary status message. */
module WebDotApp {
  import opened Js
  import opened Provider
  import opened Messages

  /** The component's React state together with the two window globals it
      uses (`window.recaptchaVerifier`, `window.confirmationResult`). */
  datatype Session = Session(
    phone: string,
    otp: string,
    step: int,                          // 0 or 1, see Valid
    message: string,
    backendResp: Json,                  // JNull until a backend answer arrives
    showRecaptcha: bool,
    confirmation: Option<Confirmation>, // window.confirmationResult
    verifier: Option<Widget>,           // window.recaptchaVerifier
    live: set<Widget>,                  // verifiers constructed and not yet cleared
    created: nat)                       // verifiers constructed so far

  /** The statement of `initializeRecaptcha`'s try block that throws
      synchronously. `render()` returns a promise that is not awaited, so
      `RenderThrows` covers only a synchronous throw; a rejection of that
      promise arrives as a `GlobalError` event instead. */
  datatype InitFault =
    | ClearThrows(error: JsError)
    | ConstructorThrows(error: JsError)
    | RenderThrows(error: JsError)

  /** What can happen to the component. The outcome of an asynchronous
      operation arrives in one event together with its start. */
  datatype Event =
    | EditPhone(value: string)
    | EditOtp(value: string)
    | ToggleRecaptcha(show: bool, fault: Option<InitFault>)
    | Send(sent: Outcome<Confirmation>)
    | Verify(verified: Outcome<Json>)
    | Captcha(signal: CaptchaSignal)
    | GlobalError(reasonMessage: string, eventMessage: string)

  /** The state of the first render, before any effect has run. */
  const Initial := Session("", "", 0, "", JNull, true, None, None, {}, 0)

  /** The step is 0 or 1, and at most the current verifier is live (an old
      one has been cleared); the counter is ahead of every verifier id. */
  predicate Valid(s: Session) {
    && (s.step == 0 || s.step == 1)
    && s.live <= Held(s.verifier)
    && (s.verifier.Some? ==> s.verifier.value.id < s.created)
  }

  /** Nothing about the verifiers changes. */
  predicate SameWidgets(s: Session, r: Session) {
    r.showRecaptcha == s.showRecaptcha && r.verifier == s.verifier && r.live == s.live && r.created == s.created
  }

  /** The fault that can actually happen: `clear()` is only called when a
      verifier is set, so without one a clear fault does not arise. */
  function Effective(s: Session, fault: Option<InitFault>): (f: Option<InitFault>)
    ensures s.verifier.Some? ==> f == fault
    ensures f.Some? && f.value.ClearThrows? ==> s.verifier.Some?
    ensures f.Some? && !f.value.ClearThrows? ==> f == fault
  {
    if fault.Some? && fault.value.ClearThrows? && s.verifier.None? then None else fault
  }

  /** `initializeRecaptcha`: clear the current verifier if there is one,
      reset the form, construct and render a new verifier; a synchronous
      throw is caught by `handleError` and leaves the effects of the
      statements before it. */
  function InitializeRecaptcha(s: Session, fault: Option<InitFault>): (r: Session)
    ensures r.backendResp == s.backendResp && r.confirmation == s.confirmation
    ensures r.showRecaptcha == s.showRecaptcha
    ensures s.verifier.None? ==> r.phone == DefaultPhone && r.otp == "" && r.step == 0
    ensures var f := Effective(s, fault);
            && (f.None? ==> r.message == s.message)
            && (f.Some? ==> r.message == HandleErrorChain(f.value.error))
            && (f.Some? && f.value.ClearThrows? ==> r.(message := s.message) == s)
            && (!(f.Some? && f.value.ClearThrows?) ==>
                  && r.phone == DefaultPhone && r.otp == "" && r.step == 0
                  && (Valid(s) ==> Held(s.verifier) !! r.live))
            && (f.None? || f.value.RenderThrows? ==>
                  && r.verifier == Some(Widget(s.created, SizeFor(s.showRecaptcha)))
                  && r.created == s.created + 1
                  && (Valid(s) ==> r.live == {r.verifier.value}))
            && (f.Some? && f.value.ConstructorThrows? ==>
                  r.verifier == s.verifier && r.created == s.created && (Valid(s) ==> r.live == {}))
    ensures Valid(s) ==> Valid(r)
  {
    var w := Widget(s.created, SizeFor(s.showRecaptcha));
    var reset := s.(live := s.live - Held(s.verifier), phone := DefaultPhone, otp := "", step := 0);
    var built := reset.(verifier := Some(w), live := reset.live + {w}, created := s.created + 1);
    match Effective(s, fault)
    case None => built
    case Some(ClearThrows(e)) => s.(message := HandleErrorChain(e))
    case Some(ConstructorThrows(e)) => reset.(message := HandleErrorChain(e))
    case Some(RenderThrows(e)) => built.(message := HandleErrorChain(e))
  }

  /** The state once the mount effects have run; no verifier exists yet, so
      `clear()` is not called. */
  function Mounted(fault: Option<InitFault>): (r: Session)
    ensures Valid(r)
    ensures r.phone == DefaultPhone && r.otp == "" && r.step == 0
    ensures r.backendResp == JNull && r.confirmation == None
    ensures fault.None? || fault.value.ClearThrows? ==>
              && r.message == ""
              && r.verifier == Some(Widget(0, Normal)) && r.live == {Widget(0, Normal)}
    ensures fault.Some? && !fault.value.ClearThrows? ==> r.message == HandleErrorChain(fault.value.error)
  {
    InitializeRecaptcha(Initial, fault)
  }

  /** Flipping the "Show reCAPTCHA widget" checkbox re-runs the effect;
      setting the value it already has does not. */
  function ToggleRecaptchaTo(s: Session, show: bool, fault: Option<InitFault>): (r: Session)
    ensures r.showRecaptcha == show
    ensures show == s.showRecaptcha ==> r == s
    ensures r.backendResp == s.backendResp && r.confirmation == s.confirmation
    ensures show != s.showRecaptcha && fault.None? && Valid(s) ==>
              && r.phone == DefaultPhone && r.otp == "" && r.step == 0 && r.message == s.message
              && r.verifier == Some(Widget(s.created, SizeFor(show)))
              && r.live == {Widget(s.created, SizeFor(show))}
    ensures Valid(s) ==> Valid(r)
  {
    if show == s.showRecaptcha then s
    else InitializeRecaptcha(s.(showRecaptcha := show), fault)
  }

  /** `sendOTP`: the message is cleared, then the raced sign-in settles.
      Success stores the confirmation and moves to step 1; a failure (the
      provider's, or the timeout's) only sets the mapped message. */
  function SendOTP(s: Session, sent: Outcome<Confirmation>): (r: Session)
    ensures r.phone == s.phone && r.otp == s.otp && r.backendResp == s.backendResp
    ensures SameWidgets(s, r)
    ensures sent.Resolved? ==> r.step == 1 && r.confirmation == Some(sent.value) && r.message == OtpSent
    ensures sent.Rejected? ==>
              r.step == s.step && r.confirmation == s.confirmation && r.message == HandleErrorChain(sent.error)
    ensures r.message != ""
  {
    var cleared := s.(message := "");
    match sent
    case Resolved(h) => cleared.(confirmation := Some(h), step := 1, message := OtpSent)
    case Rejected(e) => cleared.(message := HandleErrorChain(e))
  }

  /** `verifyOTP`: the message is cleared; without a stored confirmation the
      call throws at once; otherwise the outcome covers confirm, the id token,
      the backend request and its JSON decoding, and only a full success
      stores the backend's answer. */
  function VerifyOTP(s: Session, verified: Outcome<Json>): (r: Session)
    ensures r.phone == s.phone && r.otp == s.otp && r.step == s.step && r.confirmation == s.confirmation
    ensures SameWidgets(s, r)
    ensures s.confirmation.None? ==>
              r.backendResp == s.backendResp && r.message == MissingConfirmation.message
    ensures s.confirmation.Some? && verified.Resolved? ==>
              r.backendResp == verified.value && r.message == SignedIn
    ensures s.confirmation.Some? && verified.Rejected? ==>
              r.backendResp == s.backendResp && r.message == HandleErrorChain(verified.error)
    ensures r.message != ""
  {
    var cleared := s.(message := "");
    if s.confirmation.None? then cleared.(message := HandleErrorChain(MissingConfirmation))
    else
      match verified
      case Resolved(data) => cleared.(backendResp := data, message := SignedIn)
      case Rejected(e) => cleared.(message := HandleErrorChain(e))
  }

  /** `handleGlobalError` writes the status message and nothing else. */
  function OnGlobalError(s: Session, reasonMessage: string, eventMessage: string): (r: Session)
    ensures r.(message := s.message) == s
    ensures r.message == GlobalErrorText(reasonMessage, eventMessage)
  {
    s.(message := GlobalErrorText(reasonMessage, eventMessage))
  }

  /** One event applied to the session. */
  function Step(s: Session, e: Event): (r: Session)
    ensures Valid(s) ==> Valid(r)
    ensures r.backendResp != s.backendResp ==> e.Verify? && e.verified.Resolved?
  {
    match e
    case EditPhone(v) => s.(phone := v)
    case EditOtp(v) => s.(otp := v)
    case ToggleRecaptcha(show, fault) => ToggleRecaptchaTo(s, show, fault)
    case Send(sent) => SendOTP(s, sent)
    case Verify(verified) => VerifyOTP(s, verified)
    case Captcha(signal) => s.(message := CaptchaText(signal))
    case GlobalError(reason, msg) => OnGlobalError(s, reason, msg)
  }

  /** The events applied in order. */
  function Run(s: Session, events: seq<Event>): (r: Session)
    ensures Valid(s) ==> Valid(r)
    decreases |events|
  {
    if events == [] then s else Run(Step(s, events[0]), events[1..])
  }

  /** Whether a sign-in succeeded somewhere in `events`. */
  predicate SomeSendSucceeds(events: seq<Event>) {
    exists i :: 0 <= i < |events| && events[i].Send? && events[i].sent.Resolved?
  }

  /** Whether a full verification succeeded somewhere in `events`. */
  predicate SomeVerifySucceeds(events: seq<Event>) {
    exists i :: 0 <= i < |events| && events[i].Verify? && events[i].verified.Resolved?
  }

  /** The confirmation of the last successful sign-in in `events`, or `c`. */
  function LastConfirmation(c: Option<Confirmation>, events: seq<Event>): (last: Option<Confirmation>)
    decreases |events|
  {
    if events == [] then c
    else
      var e := events[|events| - 1];
      if e.Send? && e.sent.Resolved? then Some(e.sent.value)
      else LastConfirmation(c, events[..|events| - 1])
  }

  /** Running a trace extended by one event is running the trace, then
      stepping. */
  lemma {:induction false} RunSnoc(s: Session, events: seq<Event>, e: Event)
    ensures Run(s, events + [e]) == Step(Run(s, events), e)
    decreases |events|
  {
    if events == [] {
      assert [e][1..] == [];
    } else {
      assert (events + [e])[1..] == events[1..] + [e];
      RunSnoc(Step(s, events[0]), events[1..], e);
    }
  }

  /** The stored confirmation is the one of the last successful sign-in: it
      is never cleared, neither by a verification (successful or not) nor by
      a reCAPTCHA re-initialisation. */
  lemma {:induction false} ConfirmationIsLastSent(s: Session, events: seq<Event>)
    ensures Run(s, events).confirmation == LastConfirmation(s.confirmation, events)
    decreases |events|
  {
    if events != [] {
      var init, e := events[..|events| - 1], events[|events| - 1];
      assert events == init + [e];
      RunSnoc(s, init, e);
      ConfirmationIsLastSent(s, init);
    }
  }

  /** Without a reCAPTCHA toggle the step only moves forward: it is 1 exactly
      when some sign-in succeeded, and unchanged otherwise. */
  lemma {:induction false} StepOnlyMovesForward(s: Session, events: seq<Event>)
    requires forall i :: 0 <= i < |events| ==> !events[i].ToggleRecaptcha?
    ensures Run(s, events).step == if SomeSendSucceeds(events) then 1 else s.step
    decreases |events|
  {
    if events != [] {
      var t := events[1..];
      assert forall i :: 0 <= i < |t| ==> t[i] == events[i + 1];
      StepOnlyMovesForward(Step(s, events[0]), t);
      if SomeSendSucceeds(t) {
        var i :| 0 <= i < |t| && t[i].Send? && t[i].sent.Resolved?;
        assert events[i + 1] == t[i];
      }
      if SomeSendSucceeds(events) && !(events[0].Send? && events[0].sent.Resolved?) {
        var i :| 0 <= i < |events| && events[i].Send? && events[i].sent.Resolved?;
        assert t[i - 1] == events[i];
      }
    }
  }

  /** Only a successful verification writes the backend answer. */
  lemma {:induction false} BackendOnlyFromVerify(s: Session, events: seq<Event>)
    requires !SomeVerifySucceeds(events)
    ensures Run(s, events).backendResp == s.backendResp
    decreases |events|
  {
    if events != [] {
      var t := events[1..];
      assert !SomeVerifySucceeds(t) by {
        forall i | 0 <= i < |t|
          ensures !(t[i].Verify? && t[i].verified.Resolved?)
        {
          assert t[i] == events[i + 1];
        }
      }
      BackendOnlyFromVerify(Step(s, events[0]), t);
    }
  }

  /** From mount on, at most one verifier is ever live. */
  lemma AtMostOneLiveWidget(fault: Option<InitFault>, events: seq<Event>)
    ensures |Run(Mounted(fault), events).live| <= 1
  {
    var r := Run(Mounted(fault), events);
    assert r.live <= Held(r.verifier);
    SubsetCard(r.live, Held(r.verifier));
  }

  lemma {:induction false} SubsetCard<T>(a: set<T>, b: set<T>)
    requires a <= b
    ensures |a| <= |b|
    decreases |b|
  {
    if b != {} {
      var x :| x in b;
      SubsetCard(a - {x}, b - {x});
    }
  }

  /** Toggling the display mode away and back on the phone form (the only
      place the verifier's container exists), with re-initialisations that do
      not throw, leaves exactly one live verifier, a fresh one built with the
      original size. */
  lemma ToggleBackAndForth(s: Session, show: bool)
    requires Valid(s) && s.step == 0 && show != s.showRecaptcha
    ensures var r := ToggleRecaptchaTo(ToggleRecaptchaTo(s, show, None), s.showRecaptcha, None);
            && r.live == {Widget(s.created + 1, SizeFor(s.showRecaptcha))}
            && r.verifier == Some(Widget(s.created + 1, SizeFor(s.showRecaptcha)))
            && r.step == 0 && r.phone == DefaultPhone && r.otp == ""
  {
  }

  /** A sign-in that loses the race against the timer shows the timeout
      message and leaves the step and the confirmation as they were. */
  lemma TimedOutSend(s: Session)
    ensures var r := SendOTP(s, Rejected(TimeoutRejection));
            r.message == TimeoutMessage && r.step == s.step && r.confirmation == s.confirmation
  {
  }

  /** A verification that loses the race against the timer shows the
      timeout message and leaves the backend answer and the step as they
      were; without a stored confirmation the race is never entered. */
  lemma TimedOutVerify(s: Session)
    requires s.confirmation.Some?
    ensures var r := VerifyOTP(s, Rejected(TimeoutRejection));
            r.message == TimeoutMessage && r.step == s.step && r.backendResp == s.backendResp
  {
  }

  /** The happy path: mount, a successful sign-in, a successful
      verification. */
  lemma SignInScenario(h: Confirmation, data: Json)
    ensures var r := Run(Mounted(None), [Send(Resolved(h)), Verify(Resolved(data))]);
            && r.step == 1 && r.message == SignedIn && r.backendResp == data
            && r.confirmation == Some(h) && r.phone == DefaultPhone
  {
    var events := [Send(Resolved(h)), Verify(Resolved(data))];
    var sent := Step(Mounted(None), events[0]);
    assert events[1..] == [Verify(Resolved(data))];
    assert Run(Mounted(None), events) == Run(sent, [Verify(Resolved(data))]);
    assert Run(sent, [Verify(Resolved(data))]) == Run(Step(sent, Verify(Resolved(data))), []);
  }
}
