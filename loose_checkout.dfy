/** js/checkout.js: the checkout without an OTP step. The purchase starts
    as soon as both fields are filled in and the email is valid, and the
    payment widget is wrapped in a promise that the purchase awaits. */
module LooseCheckout {
  import opened Optional
  import opened JsString
  import opened Email
  import opened CheckoutCommon
  import StrictCheckout

  const ErrorContactSupport := "ERROR - CONTACT SUPPORT"
  const VerifyFailedPrefix := "Verification failed. Please contact support with your payment ID: "

  /** The checks of `handlePurchase` on the raw field values: both fields
      filled in and a valid email; the trimmed values go on unchanged. */
  function PurchaseGate(rawName: string, rawEmail: string): (g: Gate)
    ensures g.Proceed? <==> Trim(rawName) != "" && IsValidEmail(Trim(rawEmail))
    ensures g.Proceed? ==> g.name == Trim(rawName) && g.email == Trim(rawEmail)
    ensures Trim(rawName) == "" || Trim(rawEmail) == "" ==> g == Blocked(FillFieldsMessage)
    ensures Trim(rawName) != "" && Trim(rawEmail) != "" && !IsValidEmail(Trim(rawEmail)) ==> g == Blocked(InvalidEmailMessage)
  {
    var name := Trim(rawName);
    var email := Trim(rawEmail);
    if name == "" || email == "" then Blocked(FillFieldsMessage)
    else if !IsValidEmail(email) then Blocked(InvalidEmailMessage)
    else Proceed(name, email)
  }

  /** The two checkouts let the same field values through once the email is
      verified; the other one sends the name title-cased. */
  lemma GatesAgreeWhenVerified(rawName: string, rawEmail: string)
    ensures PurchaseGate(rawName, rawEmail).Proceed? <==> StrictCheckout.PurchaseGate(rawName, rawEmail, true).Proceed?
    ensures PurchaseGate(rawName, rawEmail).Proceed? ==>
      StrictCheckout.PurchaseGate(rawName, rawEmail, true) == PurchaseGate(rawName, rawEmail).(name := StrictCheckout.TitleCase(Trim(rawName)))
  {
  }

  /** A purchase sends a request only with both fields filled in and a valid
      email. */
  lemma NoRequestUnlessValid(rawName: string, rawEmail: string, amount: int, order: Reply, outcome: WidgetOutcome)
    ensures PurchaseRequests(PurchaseGate(rawName, rawEmail), amount, order, outcome) != [] ==>
      Trim(rawName) != "" && Trim(rawEmail) != "" && IsValidEmail(Trim(rawEmail))
  {
  }

  /** The texts `handlePaymentSuccess` shows for the `/verify-payment` answer,
      with the email warning on a success whose email could not be sent. */
  function PaymentDisplay(reply: VerifyReply, paymentId: string): (d: Display)
    ensures d.error.None? <==> reply.VerifyAnswer? && reply.success
    ensures d.emailWarning <==> reply.VerifyAnswer? && reply.success && reply.emailError
    ensures reply.VerifyAnswer? && reply.success ==> d.license == reply.code
    ensures reply.VerifyAnswer? && !reply.success ==>
      d.license == ErrorContactSupport && d.error == Some(VerifyFailedPrefix + paymentId) && Includes(d.error.value, paymentId)
    ensures reply.VerifyThrew? ==> d.license == "VERIFICATION ERROR" && d.error == Some(CouldNotVerifyMessage)
  {
    match reply
    case VerifyAnswer(success, code, emailError) =>
      if success then Display(code, None, emailError)
      else
        assert OccursAt(VerifyFailedPrefix + paymentId, paymentId, |VerifyFailedPrefix|);
        Display(ErrorContactSupport, Some(VerifyFailedPrefix + paymentId), false)
    case VerifyThrew =>
      Display("VERIFICATION ERROR", Some(CouldNotVerifyMessage), false)
  }

  /** The two checkouts show the same thing for a successful verification,
      but for the warning, which only this one shows. */
  lemma DisplaysAgreeOnSuccess(reply: VerifyReply, paymentId: string)
    requires reply.VerifyAnswer? && reply.success
    ensures PaymentDisplay(reply, paymentId).(emailWarning := false) == StrictCheckout.PaymentDisplay(reply, paymentId)
  {
  }

  /** Everything of the page the script changes, but the pay button. */
  datatype PageState = PageState(
    nameValue: string, emailValue: string,
    errors: seq<string>, license: string, emailWarnings: nat, successShown: bool,
    requests: seq<Request>)

  /** The form of js/checkout.js with the messages shown (in order), the
      email warnings appended, the requests sent (in order) and the pay
      button. */
  class CheckoutPage {
    var nameValue: string
    var emailValue: string
    var errors: seq<string>
    var license: string
    var emailWarnings: nat
    var successShown: bool
    var requests: seq<Request>
    const amount: int
    const payBtn: Button

    function State(): PageState
      reads this
    {
      PageState(nameValue, emailValue, errors, license, emailWarnings, successShown, requests)
    }

    constructor (amount0: int, payText: string)
      ensures fresh(payBtn)
      ensures State() == PageState("", "", [], "", 0, false, [])
      ensures amount == amount0
      ensures payBtn.View() == ButtonView(false, payText, "")
    {
      nameValue, emailValue := "", "";
      errors, license, emailWarnings, successShown := [], "", 0, false;
      requests := [];
      amount := amount0;
      payBtn := new Button(payText);
    }

    /** The buyer types a name. */
    method TypeName(v: string)
      modifies this
      ensures State() == old(State()).(nameValue := v)
    {
      nameValue := v;
    }

    /** The buyer types an email. */
    method TypeEmail(v: string)
      modifies this
      ensures State() == old(State()).(emailValue := v)
    {
      emailValue := v;
    }

    /** `handlePurchase` with the awaited `openRazorpayCheckout`: `order` is
        how `/create-order` went, `outcome` how the widget ended and `verify`
        the `/verify-payment` answer its success handler gets. Whatever
        happens after the checks, the pay button ends up not loading. */
    method Purchase(order: Reply, outcome: WidgetOutcome, verify: VerifyReply)
      modifies this, payBtn
      ensures var g := PurchaseGate(old(nameValue), old(emailValue));
        requests == old(requests) + PurchaseRequests(g, amount, order, outcome)
      ensures nameValue == old(nameValue) && emailValue == old(emailValue)
      ensures var g := PurchaseGate(old(nameValue), old(emailValue));
        g.Blocked? ==> State() == old(State()).(errors := old(errors) + [g.message]) && payBtn.View() == old(payBtn.View())
      ensures var g := PurchaseGate(old(nameValue), old(emailValue));
        var loaded := SetLoadingView(old(payBtn.View()), true);
        g.Proceed? ==>
          && (order != Ok ==>
                State() == old(State()).(errors := old(errors) + [PurchaseErrorMessage], requests := requests)
                && payBtn.View() == SetLoadingView(loaded, false))
          && (order == Ok && outcome.Dismissed? ==>
                State() == old(State()).(requests := requests)
                && payBtn.View() == SetLoadingView(loaded, false))
          && (order == Ok && outcome.PaymentFailed? ==>
                State() == old(State()).(errors := old(errors) + [PaymentFailedMessage, PurchaseErrorMessage], requests := requests)
                && payBtn.View() == SetLoadingView(SetLoadingView(loaded, false), false))
          && (order == Ok && outcome.Paid? ==>
                var d := PaymentDisplay(verify, outcome.ids.paymentId);
                && State() == old(State()).(
                     errors := old(errors) + d.error.ToSeq(), license := d.license,
                     emailWarnings := old(emailWarnings) + (if d.emailWarning then 1 else 0),
                     successShown := true, requests := requests)
                && payBtn.View() == SetLoadingView(loaded, false))
      ensures PurchaseGate(old(nameValue), old(emailValue)).Proceed? ==> !payBtn.disabled
    {
      var g := PurchaseGate(nameValue, emailValue);
      if g.Blocked? {
        errors := errors + [g.message];
        return;
      }
      payBtn.SetLoading(true);
      requests := requests + [CreateOrder(amount)];
      if order != Ok {
        errors := errors + [PurchaseErrorMessage];
        payBtn.SetLoading(false);
        return;
      }
      match outcome
      case Paid(ids) =>
        HandlePaymentSuccess(ids, g.name, g.email, verify);
      case Dismissed =>
        payBtn.SetLoading(false);
      case PaymentFailed =>
        errors := errors + [PaymentFailedMessage];
        payBtn.SetLoading(false);
        // the rejected promise reaches the catch block of handlePurchase
        errors := errors + [PurchaseErrorMessage];
        payBtn.SetLoading(false);
    }

    /** `handlePaymentSuccess`: show the success view, ask the server to
        verify the payment, show what it answered and, in every case, take
        the pay button out of loading. */
    method HandlePaymentSuccess(ids: PaymentIds, name: string, email: string, verify: VerifyReply)
      modifies this, payBtn
      ensures var d := PaymentDisplay(verify, ids.paymentId);
        State() == old(State()).(
          successShown := true, license := d.license,
          errors := old(errors) + d.error.ToSeq(),
          emailWarnings := old(emailWarnings) + (if d.emailWarning then 1 else 0),
          requests := old(requests) + [VerifyPayment(ids, name, email)])
      ensures payBtn.View() == SetLoadingView(old(payBtn.View()), false)
    {
      successShown := true;
      requests := requests + [VerifyPayment(ids, name, email)];
      var d := PaymentDisplay(verify, ids.paymentId);
      license := d.license;
      errors := errors + d.error.ToSeq();
      if d.emailWarning {
        emailWarnings := emailWarnings + 1;
      }
      payBtn.SetLoading(false);
    }
  }
}
