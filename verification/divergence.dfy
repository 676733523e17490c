/** The two copies of the component side by side: on every event but the
    reCAPTCHA toggle and the global error they change the shared part of the
    state in the same way; on those two they differ. The third difference,
    the timer web./ races against its provider calls, changes which outcome
    events can arrive, not how an arrived one is handled. */
module Divergence {
  import opened Js
  import opened Provider
  import opened Messages
  import Dot = WebDotApp
  import Plain = WebApp

  /** The part of the state both copies keep. */
  datatype View = View(
    phone: string,
    otp: string,
    step: int,
    message: string,
    backendResp: Json,
    confirmation: Option<Confirmation>)

  function DotView(s: Dot.Session): (v: View) {
    View(s.phone, s.otp, s.step, s.message, s.backendResp, s.confirmation)
  }

  function PlainView(s: Plain.Session): (v: View) {
    View(s.phone, s.otp, s.step, s.message, s.backendResp, s.confirmation)
  }

  /** The same user action or outcome, as web./ sees it (a toggle whose
      re-initialisation does not throw). */
  function Lift(e: Plain.Event): (d: Dot.Event) {
    match e
    case EditPhone(v) => Dot.EditPhone(v)
    case EditOtp(v) => Dot.EditOtp(v)
    case ToggleRecaptcha(show) => Dot.ToggleRecaptcha(show, None)
    case Send(sent) => Dot.Send(sent)
    case Verify(verified) => Dot.Verify(verified)
    case Captcha(signal) => Dot.Captcha(signal)
    case GlobalError(reason, msg) => Dot.GlobalError(reason, msg)
  }

  /** The events on which the copies behave alike. */
  predicate Shared(e: Plain.Event) {
    !e.ToggleRecaptcha? && !e.GlobalError?
  }

  /** One shared event keeps equal views equal. */
  lemma StepsAgree(a: Dot.Session, b: Plain.Session, e: Plain.Event)
    requires DotView(a) == PlainView(b) && Shared(e)
    ensures DotView(Dot.Step(a, Lift(e))) == PlainView(Plain.Step(b, e))
  {
    match e
    case Send(Rejected(err)) => HandleErrorVariantsAgree(err);
    case Verify(Rejected(err)) => HandleErrorVariantsAgree(err);
    case Verify(Resolved(_)) => HandleErrorVariantsAgree(MissingConfirmation);
    case _ =>
  }

  /** A trace of shared events keeps equal views equal. */
  lemma {:induction false} RunsAgree(a: Dot.Session, b: Plain.Session, events: seq<Plain.Event>)
    requires DotView(a) == PlainView(b)
    requires forall i :: 0 <= i < |events| ==> Shared(events[i])
    ensures DotView(Dot.Run(a, LiftAll(events))) == PlainView(Plain.Run(b, events))
    decreases |events|
  {
    if events != [] {
      StepsAgree(a, b, events[0]);
      assert LiftAll(events)[1..] == LiftAll(events[1..]);
      RunsAgree(Dot.Step(a, Lift(events[0])), Plain.Step(b, events[0]), events[1..]);
    }
  }

  function LiftAll(events: seq<Plain.Event>): (r: seq<Dot.Event>)
    ensures |r| == |events|
    ensures forall i :: 0 <= i < |events| ==> r[i] == Lift(events[i])
  {
    seq(|events|, i requires 0 <= i < |events| => Lift(events[i]))
  }

  /** A global error overwrites the status message in web./ and leaves it
      alone in web/, which writes `errorMessage` instead. */
  lemma GlobalErrorDiverges(a: Dot.Session, b: Plain.Session, reason: string, msg: string)
    requires DotView(a) == PlainView(b)
    ensures Dot.Step(a, Dot.GlobalError(reason, msg)).message == GlobalErrorText(reason, msg)
    ensures PlainView(Plain.Step(b, Plain.GlobalError(reason, msg))) == PlainView(b)
    ensures Plain.Step(b, Plain.GlobalError(reason, msg)).errorMessage == GlobalErrorText(reason, msg)
  {
  }

  /** Flipping the checkbox on the phone form resets the form and, when the
      re-initialisation does not throw, replaces the verifier in web./; in
      web/ it changes nothing once a verifier exists. */
  lemma ToggleDiverges(a: Dot.Session, b: Plain.Session, show: bool)
    requires DotView(a) == PlainView(b) && Dot.Valid(a) && a.step == 0
    requires show != a.showRecaptcha && show != b.showRecaptcha && b.verifier.Some?
    ensures var r := Dot.Step(a, Dot.ToggleRecaptcha(show, None));
            && r.step == 0 && r.phone == DefaultPhone && r.otp == ""
            && r.verifier == Some(Widget(a.created, SizeFor(show)))
            && a.verifier != r.verifier
    ensures var r := Plain.Step(b, Plain.ToggleRecaptcha(show));
            PlainView(r) == PlainView(b) && r.verifier == b.verifier
  {
  }

  /** Both copies start from the same shared state once mounted. */
  lemma MountedViewsAgree()
    ensures DotView(Dot.Mounted(None)) == PlainView(Plain.Mounted())
  {
  }

  /** From mount, every trace of shared events gives both copies the same
      shared state. */
  lemma MountedRunsAgree(events: seq<Plain.Event>)
    requires forall i :: 0 <= i < |events| ==> Shared(events[i])
    ensures DotView(Dot.Run(Dot.Mounted(None), LiftAll(events))) == PlainView(Plain.Run(Plain.Mounted(), events))
  {
    MountedViewsAgree();
    RunsAgree(Dot.Mounted(None), Plain.Mounted(), events);
  }
}
