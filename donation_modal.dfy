/**
 * The checkout wizard of the donation modal: amount selection, cart review,
 * payment method, success. Its handlers update the wizard's own fields and
 * call into the cart store.
 */
module DonationModal {
  import opened Wrappers
  import opened DonationContext

  datatype Step = AmountStep | CartStep | PaymentStep | SuccessStep

  datatype PaymentMethod = Card | Crypto

  /** The campaign the modal was opened for (the `campaign` prop). */
  datatype CampaignInfo = CampaignInfo(id: string, title: string, target: int, raised: int)

  /** The user actions the modal renders. */
  datatype Action =
    | PickAmount | Minus | Plus | TypeAmount | PickFrequency | SetAnonymous | AddToCartAction
    | AddMore | ProceedToPayment
    | PickPaymentMethod | CompleteDonation
    | Close

  const PredefinedAmounts: seq<int> := [25, 50, 100, 250, 500, 1000]
  const DefaultAmount: int := 50
  const GeneralCampaignId: string := "general"
  const GeneralCampaignTitle: string := "General Relief Fund"

  /** The minus button: ten less, but never below one. */
  function Decremented(amount: int): (r: int)
    ensures r >= 1
    ensures r >= amount - 10
    ensures r == amount - 10 || r == 1
  {
    if amount - 10 > 1 then amount - 10 else 1
  }

  /**
   * The amount field: `Math.max(1, parseInt(value) || 1)`, with the parse
   * given as `None` when it yields NaN.
   */
  function TypedAmount(parsed: Option<int>): (r: int)
    ensures r >= 1
    ensures parsed.Some? && parsed.value >= 1 ==> r == parsed.value
    ensures parsed.None? || parsed.value < 1 ==> r == 1
  {
    match parsed
    case None => 1
    case Some(n) => if n == 0 then 1 else if n > 1 then n else 1
  }

  /** The line item Add to Cart hands to the store: the campaign's, or the general fund's. */
  function DonationFor(campaign: Option<CampaignInfo>, amount: int, frequency: Frequency, anonymous: bool): (d: NewDonation)
    ensures d.amount == amount && d.frequency == frequency && d.anonymous == anonymous
    ensures campaign.Some? ==> d.campaignId == campaign.value.id && d.campaignTitle == campaign.value.title
    ensures campaign.None? ==> d.campaignId == GeneralCampaignId && d.campaignTitle == GeneralCampaignTitle
  {
    match campaign
    case Some(c) => NewDonation(c.id, c.title, amount, frequency, anonymous)
    case None => NewDonation(GeneralCampaignId, GeneralCampaignTitle, amount, frequency, anonymous)
  }

  /**
   * The actions offered in each step; Complete Donation is rendered disabled
   * while the store is processing.
   */
  function Enabled(step: Step, isProcessing: bool): set<Action>
  {
    match step
    case AmountStep => {PickAmount, Minus, Plus, TypeAmount, PickFrequency, SetAnonymous, AddToCartAction, Close}
    case CartStep => {AddMore, ProceedToPayment, Close}
    case PaymentStep => {PickPaymentMethod, Close} + (if isProcessing then {} else {CompleteDonation})
    case SuccessStep => {Close}
  }

  /** The step a handler leaves the wizard in when it returns. */
  function StepAfter(a: Action, step: Step): Step
  {
    match a
    case AddToCartAction => CartStep
    case AddMore => AmountStep
    case ProceedToPayment => PaymentStep
    case Close => AmountStep
    case _ => step
  }

  /**
   * The user actions move the wizard only along amount -> cart, cart -> payment,
   * cart -> amount, or back to amount by closing; choosing a payment method
   * never moves it, and Complete Donation is offered only in the payment step
   * when nothing is being processed.
   */
  lemma WizardTransitions(step: Step, isProcessing: bool, a: Action)
    requires a in Enabled(step, isProcessing)
    ensures StepAfter(a, step) != step ==>
      (step, StepAfter(a, step)) in {(AmountStep, CartStep), (CartStep, PaymentStep), (CartStep, AmountStep)} ||
      (a == Close && StepAfter(a, step) == AmountStep)
    ensures a == PickPaymentMethod ==> StepAfter(a, step) == step
    ensures a == CompleteDonation ==> step == PaymentStep && !isProcessing
  {
  }

  /** DonationModal's state, over the cart store it uses. */
  class CheckoutWizard {
    const store: CartStore
    var step: Step
    var donationAmount: int
    var frequency: Frequency
    var isAnonymous: bool
    var paymentMethod: PaymentMethod
    var finalDonationAmount: int

    /** The amount never drops below one. */
    predicate Valid()
      reads this
    {
      donationAmount >= 1
    }

    constructor (store: CartStore)
      ensures this.store == store
      ensures step == AmountStep && donationAmount == DefaultAmount && frequency == OneTime
      ensures !isAnonymous && paymentMethod == Card && finalDonationAmount == 0
      ensures Valid()
    {
      this.store := store;
      step := AmountStep;
      donationAmount := DefaultAmount;
      frequency := OneTime;
      isAnonymous := false;
      paymentMethod := Card;
      finalDonationAmount := 0;
    }

    /** One of the predefined amount buttons. */
    method PickAmountButton(amount: int)
      requires amount in PredefinedAmounts
      modifies this`donationAmount
      ensures donationAmount == amount && Valid()
    {
      donationAmount := amount;
    }

    method MinusButton()
      modifies this`donationAmount
      ensures donationAmount == Decremented(old(donationAmount)) && Valid()
    {
      donationAmount := Decremented(donationAmount);
    }

    method PlusButton()
      requires Valid()
      modifies this`donationAmount
      ensures donationAmount == old(donationAmount) + 10 && Valid()
    {
      donationAmount := donationAmount + 10;
    }

    /** The number input; `parsed` is parseInt of the typed text. */
    method AmountInput(parsed: Option<int>)
      modifies this`donationAmount
      ensures donationAmount == TypedAmount(parsed) && Valid()
    {
      donationAmount := TypedAmount(parsed);
    }

    method PickFrequencyButton(f: Frequency)
      modifies this`frequency
      ensures frequency == f
    {
      frequency := f;
    }

    method AnonymousCheckbox(checked: bool)
      modifies this`isAnonymous
      ensures isAnonymous == checked
    {
      isAnonymous := checked;
    }

    /** handleAddToCart: one item with the current choices is added, and the cart is shown. */
    method AddToCart(campaign: Option<CampaignInfo>, freshId: string)
      requires freshId !in Ids(store.cart)
      modifies this`step, store`cart, store`slot
      ensures store.cart == old(store.cart) + [WithId(DonationFor(campaign, donationAmount, frequency, isAnonymous), freshId)]
      ensures store.isProcessing == old(store.isProcessing) && store.Persisted()
      ensures step == StepAfter(AddToCartAction, old(step)) == CartStep
    {
      store.AddToCart(DonationFor(campaign, donationAmount, frequency, isAnonymous), freshId);
      step := CartStep;
    }

    /** The Add More button of the cart step. */
    method AddMoreButton()
      modifies this`step
      ensures step == StepAfter(AddMore, old(step)) == AmountStep
    {
      step := AmountStep;
    }

    /** handleProceedToPayment. */
    method ProceedToPaymentButton()
      modifies this`step
      ensures step == StepAfter(ProceedToPayment, old(step)) == PaymentStep
    {
      step := PaymentStep;
    }

    /** The card/crypto choice: only the payment method changes. */
    method PickPaymentMethodButton(m: PaymentMethod)
      modifies this`paymentMethod
      ensures paymentMethod == m
      ensures step == old(step) == StepAfter(PickPaymentMethod, old(step))
    {
      paymentMethod := m;
    }

    /**
     * handleProcessPayment up to its await: the total is captured, then
     * processDonation raises the processing flag.
     */
    method ProcessPayment()
      modifies this`finalDonationAmount, store`isProcessing
      ensures finalDonationAmount == Total(store.cart)
      ensures store.isProcessing
      ensures step == old(step) == StepAfter(CompleteDonation, old(step))
    {
      finalDonationAmount := Total(store.cart);
      store.BeginProcessDonation();
    }

    /** handleProcessPayment after processDonation resolves: cart cleared, flag lowered, success shown. */
    method PaymentCompleted()
      modifies this`step, store`cart, store`slot, store`isProcessing
      ensures step == SuccessStep
      ensures store.cart == [] && !store.isProcessing && store.Persisted()
      ensures finalDonationAmount == old(finalDonationAmount)
    {
      store.FinishProcessDonation();
      step := SuccessStep;
    }

    /** The auto-close timer after success (the parent's onClose is left to the page). */
    method AutoClose()
      modifies this`step, this`finalDonationAmount
      ensures step == AmountStep && finalDonationAmount == 0
    {
      step := AmountStep;
      finalDonationAmount := 0;
    }

    /** handleCloseModal: back to the first step, captured total reset, cart untouched. */
    method CloseModal()
      modifies this`step, this`finalDonationAmount
      ensures step == StepAfter(Close, old(step)) == AmountStep && finalDonationAmount == 0
    {
      step := AmountStep;
      finalDonationAmount := 0;
    }
  }

  /** A checkout run: the captured total is the cart's total before the cart was cleared. */
  method CheckoutScenario()
  {
    var store := new CartStore(Absent);
    var wizard := new CheckoutWizard(store);
    wizard.PlusButton();
    wizard.AddToCart(None, "x");
    assert store.cart[0].amount == 60 && store.cart[0].campaignId == GeneralCampaignId;
    wizard.ProceedToPaymentButton();
    wizard.PickPaymentMethodButton(Crypto);
    assert wizard.step == PaymentStep;
    TotalAppend([], store.cart[0]);
    assert store.cart == [] + [store.cart[0]];
    wizard.ProcessPayment();
    assert !(CompleteDonation in Enabled(wizard.step, store.isProcessing));
    wizard.PaymentCompleted();
    assert wizard.finalDonationAmount == 60 && store.cart == [] && wizard.step == SuccessStep;
  }
}
