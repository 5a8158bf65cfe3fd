/** What the two checkout scripts (public/js/checkout.js and js/checkout.js)
    share: the answers of the network and of the payment widget, which the
    model takes as inputs, the requests a page issues, the texts shown after a
    payment, and the pay button with its `setButtonLoading` save and restore. */
module CheckoutCommon {
  import opened Optional

  /** How a `fetch` ended: a response with `res.ok`, a response without it,
      or a rejected promise. */
  datatype Reply = Ok | NotOk | NetworkError

  /** The three identifiers the payment widget hands to its success handler. */
  datatype PaymentIds = PaymentIds(orderId: string, paymentId: string, signature: string)

  /** How the payment widget ended: its success handler with the payment's
      identifiers, its `ondismiss` callback, or its `payment.failed` event. */
  datatype WidgetOutcome = Paid(ids: PaymentIds) | Dismissed | PaymentFailed

  /** The parsed body of the `/verify-payment` answer (`data.success`,
      `data.code`, `data.emailError`), or an exception from the fetch or the
      JSON parse. */
  datatype VerifyReply = VerifyAnswer(success: bool, code: string, emailError: bool) | VerifyThrew

  /** The POST requests the checkout pages send, with their JSON bodies. */
  datatype Request =
    | SendOtp(email: string, name: string)
    | VerifyOtp(email: string, otp: string)
    | CreateOrder(amount: int)
    | VerifyPayment(ids: PaymentIds, name: string, email: string)

  /** What a finished payment puts on the page: the text of the licence-code
      element, the error message shown (if any) and whether the
      "couldn't email your license code" warning is appended. */
  datatype Display = Display(license: string, error: Option<string>, emailWarning: bool)

  /** The outcome of the checks `handlePurchase` runs before any request:
      the error shown, or the name and email the purchase goes on with. */
  datatype Gate = Blocked(message: string) | Proceed(name: string, email: string)

  const FillFieldsMessage := "Please fill in all required fields."
  const InvalidEmailMessage := "Please enter a valid email address."
  const PurchaseErrorMessage := "Something went wrong. Please try again or contact support."
  const PaymentFailedMessage := "Payment failed. Please try again."
  const CouldNotVerifyMessage := "Could not verify payment. Please contact support."

  /** The requests one purchase attempt sends, in order: none when the checks
      block it, then `/create-order`, and `/verify-payment` only when the order
      was created and the widget reported a payment. */
  function PurchaseRequests(g: Gate, amount: int, order: Reply, outcome: WidgetOutcome): (rs: seq<Request>)
    ensures g.Blocked? ==> rs == []
    ensures g.Proceed? ==> |rs| >= 1 && rs[0] == CreateOrder(amount)
    ensures |rs| == 2 <==> g.Proceed? && order == Ok && outcome.Paid?
    ensures |rs| == 2 ==> rs[1] == VerifyPayment(outcome.ids, g.name, g.email)
    ensures |rs| <= 2
    ensures g.Proceed? && !(order == Ok && outcome.Paid?) ==> rs == [CreateOrder(amount)]
  {
    if g.Blocked? then []
    else [CreateOrder(amount)] + (if order == Ok && outcome.Paid? then [VerifyPayment(outcome.ids, g.name, g.email)] else [])
  }

  const DefaultButtonText := "Buy Now"

  /** The `textContent` of the spinner markup a loading button gets. */
  const LoadingText := " Processing..."

  /** A button as `setButtonLoading` sees it: `disabled`, `textContent`, and
      `dataset.originalText`, where "" stands for a missing entry (the two
      behave the same under `|| 'Buy Now'`). */
  datatype ButtonView = ButtonView(disabled: bool, text: string, saved: string)

  /** `setButtonLoading(btn, isLoading)`: loading disables the button, saves its
      text and shows the spinner; unloading enables it and shows the saved
      text, or 'Buy Now' when none was saved. */
  function SetLoadingView(b: ButtonView, isLoading: bool): (r: ButtonView)
    ensures r.disabled == isLoading
    ensures isLoading ==> r.saved == b.text && r.text == LoadingText
    ensures !isLoading ==> r.saved == b.saved && r.text == (if b.saved != "" then b.saved else DefaultButtonText)
  {
    if isLoading then ButtonView(true, LoadingText, b.text)
    else ButtonView(false, if b.saved != "" then b.saved else DefaultButtonText, b.saved)
  }

  /** Loading and then unloading a button gives back its text, enabled, and
      the 'Buy Now' fallback when the button had no text. */
  lemma LoadThenUnloadRestores(b: ButtonView)
    ensures var r := SetLoadingView(SetLoadingView(b, true), false);
      && !r.disabled
      && r.text == (if b.text != "" then b.text else DefaultButtonText)
      && r.saved == b.text
  {
  }

  /** Unloading twice is unloading once. */
  lemma UnloadIdempotent(b: ButtonView)
    ensures SetLoadingView(SetLoadingView(b, false), false) == SetLoadingView(b, false)
  {
  }

  /** Loading a button that is already loading saves the spinner text, so
      the original text is lost for good. */
  lemma LoadTwiceLosesText(b: ButtonView)
    ensures SetLoadingView(SetLoadingView(SetLoadingView(b, true), true), false).text == LoadingText
  {
  }

  /** A button element of the page. */
  class Button {
    var disabled: bool
    var text: string
    var saved: string

    constructor (text0: string)
      ensures View() == ButtonView(false, text0, "")
    {
      disabled := false;
      text := text0;
      saved := "";
    }

    function View(): ButtonView
      reads this
    {
      ButtonView(disabled, text, saved)
    }

    /** `setButtonLoading(this, isLoading)`. */
    method SetLoading(isLoading: bool)
      modifies this
      ensures View() == SetLoadingView(old(View()), isLoading)
    {
      if isLoading {
        disabled := true;
        saved := text;
        text := LoadingText;
      } else {
        disabled := false;
        text := if saved != "" then saved else DefaultButtonText;
      }
    }

    /** A direct write of `textContent` (or of `innerHTML` without markup). */
    method SetText(t: string)
      modifies this
      ensures View() == old(View()).(text := t)
    {
      text := t;
    }

    /** A direct write of `disabled = true`. */
    method Disable()
      modifies this
      ensures View() == old(View()).(disabled := true)
    {
      disabled := true;
    }
  }
}
