/** public/js/checkout.js: the checkout that asks for a one-time password
    (OTP) sent to the buyer's email before it lets the purchase start.
    `smartState` is 0 before an OTP is sent, 1 once it is sent and 2 once it
    is verified; `isEmailVerified` mirrors state 2. */
module StrictCheckout {
  import opened Optional
  import opened JsString
  import opened Email
  import opened CheckoutCommon

  // ---------------------------------------------------------------------
  // Title-casing of the buyer's name: `replace(/\b\w/g, l => l.toUpperCase())`
  // ---------------------------------------------------------------------

  /** A character of the regular-expression class `\w`. */
  predicate IsWordChar(c: char)
  {
    ('a' <= c <= 'z') || ('A' <= c <= 'Z') || ('0' <= c <= '9') || c == '_'
  }

  /** `\b\w` matches at index `i`: a word character that does not follow one. */
  predicate StartsWord(s: string, i: int)
  {
    0 <= i < |s| && IsWordChar(s[i]) && (i == 0 || !IsWordChar(s[i - 1]))
  }

  /** The characters of `s` with those that start a word upper-cased, where
      `afterWord` says whether the character before `s` is a word character. */
  function CapitaliseFrom(s: string, afterWord: bool): (r: string)
    ensures |r| == |s|
    ensures |s| > 0 ==> r[0] == if IsWordChar(s[0]) && !afterWord then UpperChar(s[0]) else s[0]
    ensures forall i :: 0 < i < |s| ==> r[i] == if StartsWord(s, i) then UpperChar(s[i]) else s[i]
    decreases |s|
  {
    if s == [] then []
    else
      var rest := CapitaliseFrom(s[1..], IsWordChar(s[0]));
      assert forall i :: 1 < i < |s| ==> (StartsWord(s, i) <==> StartsWord(s[1..], i - 1));
      [if IsWordChar(s[0]) && !afterWord then UpperChar(s[0]) else s[0]] + rest
  }

  /** The name as `handlePurchase` sends it: every word character that starts
      a word is upper-cased and every other character is left as it is. */
  function TitleCase(s: string): (r: string)
    ensures |r| == |s|
    ensures forall i :: 0 <= i < |s| ==> r[i] == if StartsWord(s, i) then UpperChar(s[i]) else s[i]
  {
    CapitaliseFrom(s, false)
  }

  /** Title-casing a title-cased name changes nothing. */
  lemma TitleCaseIdempotent(s: string)
    ensures TitleCase(TitleCase(s)) == TitleCase(s)
  {
    var t := TitleCase(s);
    assert forall k :: 0 <= k < |s| ==> IsWordChar(t[k]) == IsWordChar(s[k]);
    assert forall i :: 0 <= i < |s| ==> StartsWord(t, i) == StartsWord(s, i);
  }

  // ---------------------------------------------------------------------
  // The OTP state machine of `handleSmartAction`
  // ---------------------------------------------------------------------

  /** The state after one click of the smart action button, given whether
      the trimmed email is valid, whether an OTP was typed and how the request
      went: 0 moves to 1 on a sent OTP, 1 moves to 2 on a verified one, and
      nothing else moves. */
  function SmartStep(state: int, emailValid: bool, otpGiven: bool, reply: Reply): (next: int)
    requires 0 <= state <= 2
    ensures 0 <= next <= 2
    ensures next == state || next == state + 1
    ensures next == state + 1 <==> (state == 0 && emailValid && reply == Ok) || (state == 1 && otpGiven && reply == Ok)
  {
    if state == 0 && emailValid && reply == Ok then 1
    else if state == 1 && otpGiven && reply == Ok then 2
    else state
  }

  /** The request one click of the smart action button sends, given the
      trimmed email, name and OTP. */
  function SmartRequest(state: int, email: string, name: string, otp: string): (r: Option<Request>)
    ensures r.Some? ==> state == 0 || state == 1
    ensures state == 0 ==> (r.Some? <==> IsValidEmail(email)) && (r.Some? ==> r.value == SendOtp(email, name))
    ensures state == 1 ==> (r.Some? <==> otp != "") && (r.Some? ==> r.value == VerifyOtp(email, otp))
  {
    if state == 0 && IsValidEmail(email) then Some(SendOtp(email, name))
    else if state == 1 && otp != "" then Some(VerifyOtp(email, otp))
    else None
  }

  /** The state moves only on a click that sent a request. */
  lemma StepNeedsRequest(state: int, email: string, name: string, otp: string, reply: Reply)
    requires 0 <= state <= 2
    ensures SmartStep(state, IsValidEmail(email), otp != "", reply) != state ==> SmartRequest(state, email, name, otp).Some?
  {
  }

  /** What a click of the smart action button reads (email, name and OTP
      trimmed) and how its request went. */
  datatype Click = Click(email: string, name: string, otp: string, reply: Reply)

  predicate SendAccepted(c: Click)
  {
    IsValidEmail(c.email) && c.reply == Ok
  }

  predicate VerifyAccepted(c: Click)
  {
    c.otp != "" && c.reply == Ok
  }

  /** The state after a sequence of clicks. */
  function Run(state: int, clicks: seq<Click>): (r: int)
    requires 0 <= state <= 2
    ensures state <= r <= 2
    decreases |clicks|
  {
    if clicks == [] then state
    else
      var c := clicks[0];
      Run(SmartStep(state, IsValidEmail(c.email), c.otp != "", c.reply), clicks[1..])
  }

  /** From state 1, verification needs a click whose OTP was accepted. */
  lemma {:induction false} VerifiedFromSent(clicks: seq<Click>)
    requires Run(1, clicks) == 2
    ensures exists j :: 0 <= j < |clicks| && VerifyAccepted(clicks[j])
    decreases |clicks|
  {
    var c := clicks[0];
    if VerifyAccepted(c) {
      assert VerifyAccepted(clicks[0]);
    } else {
      assert SmartStep(1, IsValidEmail(c.email), c.otp != "", c.reply) == 1;
      VerifiedFromSent(clicks[1..]);
      var j :| 0 <= j < |clicks[1..]| && VerifyAccepted(clicks[1..][j]);
      assert VerifyAccepted(clicks[j + 1]);
    }
  }

  /** From the start, verification needs an accepted send followed, later,
      by an accepted OTP. */
  lemma {:induction false} VerifiedNeedsSendThenVerify(clicks: seq<Click>)
    requires Run(0, clicks) == 2
    ensures exists i, j :: 0 <= i < j < |clicks| && SendAccepted(clicks[i]) && VerifyAccepted(clicks[j])
    decreases |clicks|
  {
    var c := clicks[0];
    var rest := clicks[1..];
    if SendAccepted(c) {
      assert SmartStep(0, IsValidEmail(c.email), c.otp != "", c.reply) == 1;
      VerifiedFromSent(rest);
      var j :| 0 <= j < |rest| && VerifyAccepted(rest[j]);
      assert SendAccepted(clicks[0]) && VerifyAccepted(clicks[j + 1]);
    } else {
      assert SmartStep(0, IsValidEmail(c.email), c.otp != "", c.reply) == 0;
      VerifiedNeedsSendThenVerify(rest);
      var i, j :| 0 <= i < j < |rest| && SendAccepted(rest[i]) && VerifyAccepted(rest[j]);
      assert SendAccepted(clicks[i + 1]) && VerifyAccepted(clicks[j + 1]);
    }
  }

  /** The email is not locked while the OTP is pending, so the address that
      is verified need not be the one the OTP was sent to: here an OTP sent
      to one address is verified with another typed in. */
  lemma VerifiedEmailMayDiffer()
    ensures var clicks := [Click("a@b.co", "", "", Ok), Click("x@y.io", "", "1234", Ok)];
      Run(0, clicks) == 2 && clicks[0].email != clicks[1].email
  {
    assert MatchAt("a@b.co", 1, 3);
  }

  // ---------------------------------------------------------------------
  // Purchase checks and the texts shown after a payment
  // ---------------------------------------------------------------------

  const VerifyFirstMessage := "Please verify your email address via OTP first."
  const VerifyFailedPrefix := "Verification failed. Payment ID: "

  /** The checks of `handlePurchase` on the raw field values: both fields
      filled in, a valid email, and an email verified by OTP. */
  function PurchaseGate(rawName: string, rawEmail: string, verified: bool): (g: Gate)
    ensures g.Proceed? <==> Trim(rawName) != "" && IsValidEmail(Trim(rawEmail)) && verified
    ensures g.Proceed? ==> g.name == TitleCase(Trim(rawName)) && g.email == Trim(rawEmail)
    ensures Trim(rawName) == "" || Trim(rawEmail) == "" ==> g == Blocked(FillFieldsMessage)
    ensures Trim(rawName) != "" && Trim(rawEmail) != "" && !IsValidEmail(Trim(rawEmail)) ==> g == Blocked(InvalidEmailMessage)
    ensures Trim(rawName) != "" && IsValidEmail(Trim(rawEmail)) && !verified ==> g == Blocked(VerifyFirstMessage)
  {
    var name := TitleCase(Trim(rawName));
    var email := Trim(rawEmail);
    if name == "" || email == "" then Blocked(FillFieldsMessage)
    else if !IsValidEmail(email) then Blocked(InvalidEmailMessage)
    else if !verified then Blocked(VerifyFirstMessage)
    else Proceed(name, email)
  }

  /** A purchase sends a request only with both fields filled in, a valid
      email and the email verified. */
  lemma NoRequestUnlessVerified(rawName: string, rawEmail: string, verified: bool, amount: int, order: Reply, outcome: WidgetOutcome)
    ensures PurchaseRequests(PurchaseGate(rawName, rawEmail, verified), amount, order, outcome) != [] ==>
      Trim(rawName) != "" && Trim(rawEmail) != "" && IsValidEmail(Trim(rawEmail)) && verified
  {
  }

  /** The texts `handlePaymentSuccess` shows for the `/verify-payment` answer. */
  function PaymentDisplay(reply: VerifyReply, paymentId: string): (d: Display)
    ensures d.error.None? <==> reply.VerifyAnswer? && reply.success
    ensures reply.VerifyAnswer? && reply.success ==> d.license == reply.code
    ensures reply.VerifyAnswer? && !reply.success ==>
      d.license == "CONTACT SUPPORT" && d.error == Some(VerifyFailedPrefix + paymentId) && Includes(d.error.value, paymentId)
    ensures reply.VerifyThrew? ==> d.license == "VERIFICATION ERROR" && d.error == Some(CouldNotVerifyMessage)
    ensures !d.emailWarning
  {
    match reply
    case VerifyAnswer(success, code, _) =>
      if success then Display(code, None, false)
      else
        assert OccursAt(VerifyFailedPrefix + paymentId, paymentId, |VerifyFailedPrefix|);
        Display("CONTACT SUPPORT", Some(VerifyFailedPrefix + paymentId), false)
    case VerifyThrew =>
      Display("VERIFICATION ERROR", Some(CouldNotVerifyMessage), false)
  }

  // ---------------------------------------------------------------------
  // The page
  // ---------------------------------------------------------------------

  const OtpSentMessage := "OTP sent! Check your email."
  const OtpSendFailedMessage := "Failed to send email. Try again."
  const EmailFirstMessage := "Please enter a valid email first."
  const EnterOtpMessage := "Please enter OTP."
  const BadOtpMessage := "Invalid or Expired OTP."
  const ConfirmText := "CONFIRM"
  const VerifiedText := "✓"
  const OpeningText := "OPENING CHECKOUT..."
  const VerifyingText := "VERIFYING..."

  /** Everything of the page the scripts change, but the two buttons. */
  datatype PageState = PageState(
    smartState: int, isEmailVerified: bool,
    nameValue: string, emailValue: string, otpValue: string, emailReadOnly: bool,
    otpMessages: seq<string>, errors: seq<string>,
    license: string, successShown: bool,
    requests: seq<Request>)

  /** After an accepted send, `handleSendOTP` writes 'CONFIRM' on the action
      button, and its `finally` block then restores the text saved when the
      button started loading: the 'CONFIRM' write leaves no trace. */
  lemma ConfirmLabelOverwritten(b: ButtonView)
    ensures SetLoadingView(SetLoadingView(b, true).(text := ConfirmText), false) == SetLoadingView(SetLoadingView(b, true), false)
  {
  }

  /** The module-level state of public/js/checkout.js together with the
      form fields, the messages shown (in order), the requests sent (in
      order) and the two buttons. */
  class CheckoutPage {
    var smartState: int
    var isEmailVerified: bool
    var nameValue: string
    var emailValue: string
    var otpValue: string
    var emailReadOnly: bool
    var otpMessages: seq<string>
    var errors: seq<string>
    var license: string
    var successShown: bool
    var requests: seq<Request>
    const amount: int
    const actionBtn: Button
    const payBtn: Button

    function State(): PageState
      reads this
    {
      PageState(smartState, isEmailVerified, nameValue, emailValue, otpValue, emailReadOnly,
        otpMessages, errors, license, successShown, requests)
    }

    /** `isEmailVerified` holds exactly in state 2, and so does the lock on
        the email field. */
    ghost predicate Valid()
      reads this
    {
      && 0 <= smartState <= 2
      && (isEmailVerified <==> smartState == 2)
      && (emailReadOnly <==> isEmailVerified)
      && actionBtn != payBtn
    }

    constructor (amount0: int, actionText: string, payText: string)
      ensures Valid() && fresh(actionBtn) && fresh(payBtn)
      ensures State() == PageState(0, false, "", "", "", false, [], [], "", false, [])
      ensures amount == amount0
      ensures actionBtn.View() == ButtonView(false, actionText, "")
      ensures payBtn.View() == ButtonView(false, payText, "")
    {
      smartState, isEmailVerified := 0, false;
      nameValue, emailValue, otpValue, emailReadOnly := "", "", "", false;
      otpMessages, errors := [], [];
      license, successShown := "", false;
      requests := [];
      amount := amount0;
      actionBtn := new Button(actionText);
      payBtn := new Button(payText);
    }

    /** The buyer types a name. */
    method TypeName(v: string)
      modifies this
      ensures State() == old(State()).(nameValue := v)
    {
      nameValue := v;
    }

    /** The buyer types an email; a read-only field keeps its value. */
    method TypeEmail(v: string)
      modifies this
      ensures State() == old(State()).(emailValue := if old(emailReadOnly) then old(emailValue) else v)
    {
      if !emailReadOnly {
        emailValue := v;
      }
    }

    /** The buyer types an OTP. */
    method TypeOtp(v: string)
      modifies this
      ensures State() == old(State()).(otpValue := v)
    {
      otpValue := v;
    }

    /** `handleSmartAction`: in state 0 send an OTP, in state 1 verify it,
        in state 2 do nothing; `reply` is how the request went. */
    method HandleSmartAction(reply: Reply)
      requires Valid()
      modifies this, actionBtn
      ensures Valid()
      ensures smartState == SmartStep(old(smartState), IsValidEmail(Trim(old(emailValue))), Trim(old(otpValue)) != "", reply)
      ensures requests == old(requests) + SmartRequest(old(smartState), Trim(old(emailValue)), Trim(old(nameValue)), Trim(old(otpValue))).ToSeq()
      ensures nameValue == old(nameValue) && emailValue == old(emailValue) && otpValue == old(otpValue)
      ensures errors == old(errors) && license == old(license) && successShown == old(successShown)
      ensures old(smartState) == 2 ==> State() == old(State()) && actionBtn.View() == old(actionBtn.View())
      ensures old(smartState) == 0 ==>
        var email := Trim(old(emailValue));
          !IsValidEmail(email) ==>
            && State() == old(State()).(otpMessages := old(otpMessages) + [EmailFirstMessage])
            && actionBtn.View() == old(actionBtn.View())
      ensures old(smartState) == 0 ==>
        var email := Trim(old(emailValue));
          IsValidEmail(email) ==>
            && State() == old(State()).(
                 smartState := if reply == Ok then 1 else 0,
                 otpMessages := old(otpMessages) + [if reply == Ok then OtpSentMessage else OtpSendFailedMessage],
                 requests := old(requests) + [SendOtp(email, Trim(old(nameValue)))])
            && actionBtn.View() == SetLoadingView(
                 if reply == Ok then SetLoadingView(old(actionBtn.View()), true).(text := ConfirmText)
                 else SetLoadingView(old(actionBtn.View()), true), false)
      ensures old(smartState) == 1 ==>
        var otp := Trim(old(otpValue));
          otp == "" ==>
            && State() == old(State()).(otpMessages := old(otpMessages) + [EnterOtpMessage])
            && actionBtn.View() == old(actionBtn.View())
      ensures old(smartState) == 1 ==>
        var otp := Trim(old(otpValue));
          otp != "" && reply == Ok ==>
            && State() == old(State()).(
                 smartState := 2, isEmailVerified := true, emailReadOnly := true,
                 otpMessages := old(otpMessages) + [""],
                 requests := old(requests) + [VerifyOtp(Trim(old(emailValue)), otp)])
            && actionBtn.View() == SetLoadingView(old(actionBtn.View()), true).(text := VerifiedText)
      ensures old(smartState) == 1 ==>
        var otp := Trim(old(otpValue));
          otp != "" && reply != Ok ==>
            && State() == old(State()).(
                 otpMessages := old(otpMessages) + [BadOtpMessage],
                 requests := old(requests) + [VerifyOtp(Trim(old(emailValue)), otp)])
            && actionBtn.View() == SetLoadingView(SetLoadingView(old(actionBtn.View()), true), false)
    {
      if smartState == 0 {
        HandleSendOtp(reply);
      } else if smartState == 1 {
        HandleVerifyOtp(reply);
      }
    }

    /** `handleSendOTP`. */
    method HandleSendOtp(reply: Reply)
      requires Valid() && smartState == 0
      modifies this, actionBtn
      ensures Valid()
      ensures var email := Trim(old(emailValue));
        !IsValidEmail(email) ==>
          && State() == old(State()).(otpMessages := old(otpMessages) + [EmailFirstMessage])
          && actionBtn.View() == old(actionBtn.View())
      ensures var email := Trim(old(emailValue));
        IsValidEmail(email) ==>
          && State() == old(State()).(
               smartState := if reply == Ok then 1 else 0,
               otpMessages := old(otpMessages) + [if reply == Ok then OtpSentMessage else OtpSendFailedMessage],
               requests := old(requests) + [SendOtp(email, Trim(old(nameValue)))])
          && actionBtn.View() == SetLoadingView(
               if reply == Ok then SetLoadingView(old(actionBtn.View()), true).(text := ConfirmText)
               else SetLoadingView(old(actionBtn.View()), true), false)
    {
      var email := Trim(emailValue);
      var name := Trim(nameValue);
      if !IsValidEmail(email) {
        otpMessages := otpMessages + [EmailFirstMessage];
        return;
      }
      actionBtn.SetLoading(true);
      requests := requests + [SendOtp(email, name)];
      if reply == Ok {
        smartState := 1;
        otpMessages := otpMessages + [OtpSentMessage];
        actionBtn.SetText(ConfirmText);
      } else {
        otpMessages := otpMessages + [OtpSendFailedMessage];
      }
      actionBtn.SetLoading(false);
    }

    /** `handleVerifyOTP`. */
    method HandleVerifyOtp(reply: Reply)
      requires Valid() && smartState == 1
      modifies this, actionBtn
      ensures Valid()
      ensures var otp := Trim(old(otpValue));
        otp == "" ==>
          && State() == old(State()).(otpMessages := old(otpMessages) + [EnterOtpMessage])
          && actionBtn.View() == old(actionBtn.View())
      ensures var otp := Trim(old(otpValue));
        otp != "" && reply == Ok ==>
          && State() == old(State()).(
               smartState := 2, isEmailVerified := true, emailReadOnly := true,
               otpMessages := old(otpMessages) + [""],
               requests := old(requests) + [VerifyOtp(Trim(old(emailValue)), otp)])
          && actionBtn.View() == SetLoadingView(old(actionBtn.View()), true).(text := VerifiedText)
      ensures var otp := Trim(old(otpValue));
        otp != "" && reply != Ok ==>
          && State() == old(State()).(
               otpMessages := old(otpMessages) + [BadOtpMessage],
               requests := old(requests) + [VerifyOtp(Trim(old(emailValue)), otp)])
          && actionBtn.View() == SetLoadingView(SetLoadingView(old(actionBtn.View()), true), false)
    {
      var email := Trim(emailValue);
      var otp := Trim(otpValue);
      if otp == "" {
        otpMessages := otpMessages + [EnterOtpMessage];
        return;
      }
      actionBtn.SetLoading(true);
      requests := requests + [VerifyOtp(email, otp)];
      if reply == Ok {
        isEmailVerified := true;
        smartState := 2;
        otpMessages := otpMessages + [""];
        actionBtn.SetText(VerifiedText);
        emailReadOnly := true;
      } else {
        otpMessages := otpMessages + [BadOtpMessage];
      }
      if smartState != 2 {
        actionBtn.SetLoading(false);
      }
    }

    /** `handlePurchase` followed by the widget's callback: `order` is how
        `/create-order` went, `outcome` how the widget ended and `verify` the
        `/verify-payment` answer its success handler gets. */
    method Purchase(order: Reply, outcome: WidgetOutcome, verify: VerifyReply)
      requires Valid()
      modifies this, payBtn
      ensures Valid()
      ensures var g := PurchaseGate(old(nameValue), old(emailValue), old(isEmailVerified));
        requests == old(requests) + PurchaseRequests(g, amount, order, outcome)
      ensures smartState == old(smartState) && isEmailVerified == old(isEmailVerified)
      ensures nameValue == old(nameValue) && emailValue == old(emailValue) && otpValue == old(otpValue)
      ensures otpMessages == old(otpMessages) && emailReadOnly == old(emailReadOnly)
      ensures var g := PurchaseGate(old(nameValue), old(emailValue), old(isEmailVerified));
        g.Blocked? ==> State() == old(State()).(errors := old(errors) + [g.message]) && payBtn.View() == old(payBtn.View())
      ensures var g := PurchaseGate(old(nameValue), old(emailValue), old(isEmailVerified));
        var loaded := SetLoadingView(old(payBtn.View()), true);
        var opening := loaded.(text := OpeningText, disabled := true);
        g.Proceed? ==>
          && (order != Ok ==>
                errors == old(errors) + [PurchaseErrorMessage] && license == old(license) && successShown == old(successShown)
                && payBtn.View() == SetLoadingView(SetLoadingView(loaded, false), false))
          && (order == Ok && outcome.Dismissed? ==>
                errors == old(errors) && license == old(license) && successShown == old(successShown)
                && payBtn.View() == SetLoadingView(opening, false))
          && (order == Ok && outcome.PaymentFailed? ==>
                errors == old(errors) + [PaymentFailedMessage] && license == old(license) && successShown == old(successShown)
                && payBtn.View() == SetLoadingView(opening, false))
          && (order == Ok && outcome.Paid? ==>
                var d := PaymentDisplay(verify, outcome.ids.paymentId);
                errors == old(errors) + d.error.ToSeq() && license == d.license && successShown
                && payBtn.View() == opening.(text := VerifyingText))
    {
      var g := PurchaseGate(nameValue, emailValue, isEmailVerified);
      if g.Blocked? {
        errors := errors + [g.message];
        return;
      }
      payBtn.SetLoading(true);
      requests := requests + [CreateOrder(amount)];
      if order != Ok {
        errors := errors + [PurchaseErrorMessage];
        payBtn.SetLoading(false);  // resetUI
        payBtn.SetLoading(false);
        return;
      }
      payBtn.SetText(OpeningText);  // showQRUI
      payBtn.Disable();
      OpenRazorpayCheckout(g.name, g.email, outcome, verify);
    }

    /** `openRazorpayCheckout`: the widget's three callbacks. Success shows
        VERIFYING... and hands over to `handlePaymentSuccess`; a dismissal
        resets the button; a failed payment reports it and resets the
        button. */
    method OpenRazorpayCheckout(name: string, email: string, outcome: WidgetOutcome, verify: VerifyReply)
      requires Valid()
      modifies this, payBtn
      ensures Valid()
      ensures outcome.Paid? ==>
        var d := PaymentDisplay(verify, outcome.ids.paymentId);
        && State() == old(State()).(
             successShown := true, license := d.license,
             errors := old(errors) + d.error.ToSeq(),
             requests := old(requests) + [VerifyPayment(outcome.ids, name, email)])
        && payBtn.View() == old(payBtn.View()).(text := VerifyingText)
      ensures outcome.Dismissed? ==>
        State() == old(State()) && payBtn.View() == SetLoadingView(old(payBtn.View()), false)
      ensures outcome.PaymentFailed? ==>
        && State() == old(State()).(errors := old(errors) + [PaymentFailedMessage])
        && payBtn.View() == SetLoadingView(old(payBtn.View()), false)
    {
      match outcome
      case Paid(ids) =>
        payBtn.SetText(VerifyingText);
        HandlePaymentSuccess(ids, name, email, verify);
      case Dismissed =>
        payBtn.SetLoading(false);  // resetUI
      case PaymentFailed =>
        errors := errors + [PaymentFailedMessage];
        payBtn.SetLoading(false);  // resetUI
    }

    /** `handlePaymentSuccess`: show the success view, ask the server to
        verify the payment and show what it answered. */
    method HandlePaymentSuccess(ids: PaymentIds, name: string, email: string, verify: VerifyReply)
      modifies this
      ensures var d := PaymentDisplay(verify, ids.paymentId);
        State() == old(State()).(
          successShown := true, license := d.license,
          errors := old(errors) + d.error.ToSeq(),
          requests := old(requests) + [VerifyPayment(ids, name, email)])
    {
      successShown := true;
      requests := requests + [VerifyPayment(ids, name, email)];
      var d := PaymentDisplay(verify, ids.paymentId);
      license := d.license;
      errors := errors + d.error.ToSeq();
    }
  }
}
