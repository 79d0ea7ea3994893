/**
 * The mock OTP sign-in form (project/components/FirebaseAuth.tsx). The
 * component keeps six pieces of state (lines 10-15) that its handlers update.
 * Each `setTimeout` callback is modelled as its own completion step, which
 * may run at any time, even unscheduled or twice; alerts, rendering and the
 * timers' delays are not modelled.
 *
 * `FormState` is the value of the six fields; the pure functions below say
 * what each handler does to it, and the class `SignInForm` carries out the
 * same updates field by field.
 */
module FirebaseAuth {
  import opened Options

  datatype AuthMode = Phone | Email

  /** The component's state (lines 10-15). */
  datatype FormState = FormState(
    authMode: AuthMode,
    phoneNumber: string,
    email: string,
    otp: string,
    isOtpSent: bool,
    isLoading: bool)

  /** The state of a freshly mounted component. */
  const Initial: FormState := FormState(Phone, "", "", "", false, false)

  /** The longest OTP the OTP field accepts (`maxLength={6}`, line 129). */
  const OtpLength: nat := 6

  /** The user object handed to `onAuthSuccess` (lines 46-51). */
  datatype MockUser = MockUser(uid: string, phoneNumber: Option<string>, email: Option<string>, displayName: string)

  /**
   * What the verification timer's callback closes over: the mode, phone
   * number and email of the render in which `verifyOtp` ran.
   */
  datatype PendingVerify = PendingVerify(authMode: AuthMode, phoneNumber: string, email: string)

  /** The guard of `sendOtp` (lines 18-25): the identifier of the current mode looks valid. */
  predicate SendOtpAccepts(s: FormState) {
    !(s.authMode == Phone && |s.phoneNumber| < 10) && !(s.authMode == Email && '@' !in s.email)
  }

  /** `sendOtp`: on a valid identifier it starts loading and schedules its timer; otherwise nothing changes. */
  function AfterSendOtp(s: FormState): (t: FormState)
    ensures SendOtpAccepts(s) ==> t == s.(isLoading := true)
    ensures !SendOtpAccepts(s) ==> t == s
  {
    if SendOtpAccepts(s) then s.(isLoading := true) else s
  }

  /** The `sendOtp` timer callback (lines 29-33). */
  function AfterSendOtpTimer(s: FormState): (t: FormState)
    ensures t.isOtpSent && !t.isLoading
    ensures t.(isOtpSent := s.isOtpSent, isLoading := s.isLoading) == s
  {
    s.(isOtpSent := true, isLoading := false)
  }

  /** The guard of `verifyOtp` (line 37). */
  predicate VerifyOtpAccepts(s: FormState) {
    |s.otp| == OtpLength
  }

  /** `verifyOtp`: on a six-character OTP it starts loading and schedules its timer; otherwise nothing changes. */
  function AfterVerifyOtp(s: FormState): (t: FormState)
    ensures VerifyOtpAccepts(s) ==> t == s.(isLoading := true)
    ensures !VerifyOtpAccepts(s) ==> t == s
  {
    if VerifyOtpAccepts(s) then s.(isLoading := true) else s
  }

  /** What the `verifyOtp` timer callback captures from its render. */
  function Capture(s: FormState): (p: PendingVerify)
    ensures p.authMode == s.authMode && p.phoneNumber == s.phoneNumber && p.email == s.email
  {
    PendingVerify(s.authMode, s.phoneNumber, s.email)
  }

  /** The `verifyOtp` timer callback (lines 44-53) clears `isLoading` and changes nothing else. */
  function AfterVerifyOtpTimer(s: FormState): (t: FormState)
    ensures !t.isLoading
    ensures t.(isLoading := s.isLoading) == s
  {
    s.(isLoading := false)
  }

  /** The user the `verifyOtp` timer callback signs in (lines 46-51). */
  function VerifiedUser(p: PendingVerify): (user: MockUser)
    ensures user.uid == "mock-user-id"
    ensures user.phoneNumber.Some? <==> p.authMode == Phone
    ensures user.email.Some? <==> p.authMode == Email
    ensures user.phoneNumber.Some? ==> user.phoneNumber.value == p.phoneNumber
    ensures user.email.Some? ==> user.email.value == p.email
    ensures user.displayName == "राम कुमार"
  {
    MockUser(
      "mock-user-id",
      if p.authMode == Phone then Some(p.phoneNumber) else None,
      if p.authMode == Email then Some(p.email) else None,
      "राम कुमार")
  }

  /** The resend button (line 144). */
  function AfterResend(s: FormState): (t: FormState)
    ensures !t.isOtpSent
    ensures t.(isOtpSent := s.isOtpSent) == s
  {
    s.(isOtpSent := false)
  }

  /** The phone and email toggles (lines 70 and 79). */
  function AfterSelectMode(s: FormState, mode: AuthMode): (t: FormState)
    ensures t.authMode == mode
    ensures t.(authMode := s.authMode) == s
  {
    s.(authMode := mode)
  }

  /** The identifier field edits the phone number in phone mode and the email in email mode (line 100). */
  function AfterEditIdentifier(s: FormState, text: string): (t: FormState)
    ensures s.authMode == Phone ==> t == s.(phoneNumber := text)
    ensures s.authMode == Email ==> t == s.(email := text)
  {
    match s.authMode
    case Phone => s.(phoneNumber := text)
    case Email => s.(email := text)
  }

  /** The OTP field keeps at most six characters of what is typed (lines 127-129). */
  function AfterEditOtp(s: FormState, text: string): (t: FormState)
    ensures |t.otp| <= OtpLength
    ensures |text| <= OtpLength ==> t.otp == text
    ensures |text| > OtpLength ==> t.otp == text[..OtpLength]
    ensures t.otp == text[..|t.otp|]
    ensures t.(otp := s.otp) == s
  {
    s.(otp := if |text| <= OtpLength then text else text[..OtpLength])
  }

  /** The phone check applies only in phone mode and the email check only in email mode. */
  lemma SendOtpGuardIsModeSpecific(s: FormState)
    ensures s.authMode == Phone ==> (SendOtpAccepts(s) <==> |s.phoneNumber| >= 10)
    ensures s.authMode == Email ==> (SendOtpAccepts(s) <==> '@' in s.email)
  {
  }

  /** An accepted `sendOtp` followed by its timer marks the OTP sent, stops loading and changes nothing else. */
  lemma SendOtpThenTimer(s: FormState)
    requires SendOtpAccepts(s)
    ensures AfterSendOtpTimer(AfterSendOtp(s)) == s.(isOtpSent := true, isLoading := false)
  {
  }

  /**
   * An accepted `verifyOtp` followed by its timer stops loading, changes
   * nothing else, and signs in the user of the identifier of the current mode.
   */
  lemma VerifyOtpThenTimer(s: FormState)
    requires VerifyOtpAccepts(s)
    ensures AfterVerifyOtpTimer(AfterVerifyOtp(s)) == s.(isLoading := false)
    ensures s.authMode == Phone ==> VerifiedUser(Capture(s)).phoneNumber == Some(s.phoneNumber)
    ensures s.authMode == Phone ==> VerifiedUser(Capture(s)).email == None
    ensures s.authMode == Email ==> VerifiedUser(Capture(s)).email == Some(s.email)
    ensures s.authMode == Email ==> VerifiedUser(Capture(s)).phoneNumber == None
  {
  }

  /** Switching to the other mode and back restores the state: no entered value is lost. */
  lemma ToggleAndBack(s: FormState, mode: AuthMode)
    ensures AfterSelectMode(AfterSelectMode(s, mode), s.authMode) == s
  {
  }

  /** Resend itself sends nothing: it neither starts loading nor touches the identifiers or the OTP. */
  lemma ResendOnlyReopensEntry(s: FormState)
    ensures AfterResend(s).isLoading == s.isLoading
    ensures AfterResend(s).otp == s.otp
    ensures SendOtpAccepts(AfterResend(s)) == SendOtpAccepts(s)
  {
  }

  /** One user action or timer completion. */
  datatype Event =
    | SendOtpPressed
    | SendOtpTimer
    | VerifyOtpPressed
    | VerifyOtpTimer
    | ResendPressed
    | ModeSelected(mode: AuthMode)
    | IdentifierTyped(text: string)
    | OtpTyped(text: string)

  /** The state after one event. */
  function Step(s: FormState, e: Event): FormState {
    match e
    case SendOtpPressed => AfterSendOtp(s)
    case SendOtpTimer => AfterSendOtpTimer(s)
    case VerifyOtpPressed => AfterVerifyOtp(s)
    case VerifyOtpTimer => AfterVerifyOtpTimer(s)
    case ResendPressed => AfterResend(s)
    case ModeSelected(mode) => AfterSelectMode(s, mode)
    case IdentifierTyped(text) => AfterEditIdentifier(s, text)
    case OtpTyped(text) => AfterEditOtp(s, text)
  }

  /** The state after a sequence of events. */
  function Run(s: FormState, events: seq<Event>): FormState
    decreases |events|
  {
    if events == [] then s else Run(Step(s, events[0]), events[1..])
  }

  /** No sequence of events gives the OTP field more than six characters. */
  lemma {:induction false} RunKeepsOtpShort(s: FormState, events: seq<Event>)
    requires |s.otp| <= OtpLength
    ensures |Run(s, events).otp| <= OtpLength
    decreases |events|
  {
    if events != [] {
      RunKeepsOtpShort(Step(s, events[0]), events[1..]);
    }
  }

  /** Without a `sendOtp` timer among the events, the OTP screen is never reached from the entry screen. */
  lemma {:induction false} OtpSentOnlyByTimer(s: FormState, events: seq<Event>)
    requires !s.isOtpSent
    requires forall i :: 0 <= i < |events| ==> events[i] != SendOtpTimer
    ensures !Run(s, events).isOtpSent
    decreases |events|
  {
    if events != [] {
      OtpSentOnlyByTimer(Step(s, events[0]), events[1..]);
    }
  }

  /**
   * The entry screen stays usable while `sendOtp` is loading, so switching
   * to email mode before the timer fires reaches the OTP screen with an
   * identifier that was never checked.
   */
  lemma OtpScreenWithUncheckedEmail()
    ensures var s := Run(Initial, [IdentifierTyped("9876543210"), SendOtpPressed, ModeSelected(Email), SendOtpTimer]);
      s.isOtpSent && !SendOtpAccepts(s)
  {
  }

  /** The state the six `useState` hooks hold. */
  class SignInForm {
    var authMode: AuthMode
    var phoneNumber: string
    var email: string
    var otp: string
    var isOtpSent: bool
    var isLoading: bool

    function State(): FormState
      reads this
    {
      FormState(authMode, phoneNumber, email, otp, isOtpSent, isLoading)
    }

    /** The OTP field never holds more than six characters. */
    predicate Valid()
      reads this
    {
      |otp| <= OtpLength
    }

    constructor ()
      ensures Valid() && State() == Initial
    {
      authMode, phoneNumber, email, otp := Phone, "", "", "";
      isOtpSent, isLoading := false, false;
    }

    /** `sendOtp`; `scheduled` says whether its completion timer was started. */
    method SendOtp() returns (scheduled: bool)
      requires Valid()
      modifies this
      ensures Valid() && State() == AfterSendOtp(old(State()))
      ensures scheduled == SendOtpAccepts(old(State()))
    {
      if authMode == Phone && |phoneNumber| < 10 {
        return false;
      }
      if authMode == Email && '@' !in email {
        return false;
      }
      isLoading := true;
      scheduled := true;
    }

    /** The completion step of `sendOtp`. */
    method SendOtpTimerFires()
      requires Valid()
      modifies this
      ensures Valid() && State() == AfterSendOtpTimer(old(State()))
    {
      isOtpSent := true;
      isLoading := false;
    }

    /** `verifyOtp`; `pending` is the closure of the completion timer it started, if any. */
    method VerifyOtp() returns (pending: Option<PendingVerify>)
      requires Valid()
      modifies this
      ensures Valid() && State() == AfterVerifyOtp(old(State()))
      ensures pending == if VerifyOtpAccepts(old(State())) then Some(Capture(old(State()))) else None
    {
      if |otp| != OtpLength {
        return None;
      }
      isLoading := true;
      pending := Some(PendingVerify(authMode, phoneNumber, email));
    }

    /** The completion step of `verifyOtp`; `user` is what it passes to `onAuthSuccess`. */
    method VerifyOtpTimerFires(pending: PendingVerify) returns (user: MockUser)
      requires Valid()
      modifies this
      ensures Valid() && State() == AfterVerifyOtpTimer(old(State()))
      ensures user == VerifiedUser(pending)
    {
      isLoading := false;
      user := MockUser(
        "mock-user-id",
        if pending.authMode == Phone then Some(pending.phoneNumber) else None,
        if pending.authMode == Email then Some(pending.email) else None,
        "राम कुमार");
    }

    /** The resend button. */
    method Resend()
      requires Valid()
      modifies this
      ensures Valid() && State() == AfterResend(old(State()))
    {
      isOtpSent := false;
    }

    /** The phone or email toggle. */
    method SelectMode(mode: AuthMode)
      requires Valid()
      modifies this
      ensures Valid() && State() == AfterSelectMode(old(State()), mode)
    {
      authMode := mode;
    }

    /** Typing into the identifier field. */
    method EditIdentifier(text: string)
      requires Valid()
      modifies this
      ensures Valid() && State() == AfterEditIdentifier(old(State()), text)
    {
      if authMode == Phone {
        phoneNumber := text;
      } else {
        email := text;
      }
    }

    /** Typing into the OTP field. */
    method EditOtp(text: string)
      requires Valid()
      modifies this
      ensures Valid() && State() == AfterEditOtp(old(State()), text)
    {
      otp := if |text| <= OtpLength then text else text[..OtpLength];
    }
  }

  /**
   * A complete phone sign-in: type the number, send the OTP, let its timer
   * fire, type the code, verify, let that timer fire. The user handed to
   * `onAuthSuccess` carries the phone number and no email.
   */
  method PhoneSignIn(phone: string, code: string) returns (user: MockUser)
    requires |phone| >= 10 && |code| == OtpLength
    ensures user == MockUser("mock-user-id", Some(phone), None, "राम कुमार")
  {
    var form := new SignInForm();
    form.EditIdentifier(phone);
    var scheduled := form.SendOtp();
    assert scheduled;
    form.SendOtpTimerFires();
    form.EditOtp(code);
    var pending := form.VerifyOtp();
    user := form.VerifyOtpTimerFires(pending.value);
  }
}
