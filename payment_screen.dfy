/**
 * The payment screen: when it renders, the price it shows, the back button's
 * gate, and the state updates of its three handlers.
 */
module PaymentScreen {
  import opened Optional
  import opened CaseTypes

  /** The screen renders only with a case and a selected service; otherwise it shows nothing. */
  function Renders(caseData: Option<CaseData>, s: State): (renders: bool)
    ensures renders ==> caseData.Some? && s.selectedService.Some?
    ensures caseData.Some? && s.selectedService.Some? ==> renders
  {
    caseData.Some? && s.selectedService.Some?
  }

  /**
   * `calculatePrice`: a swap costs the deductible plus the deposit (a missing
   * deposit counts as 0); every other service costs the deductible.
   */
  function CalculatePrice(service: ServiceOption, pricing: Pricing): (price: int)
    ensures price != pricing.deductible ==> service == Swap
    ensures pricing.deposit.GetOr(0) == 0 ==> price == pricing.deductible
    ensures pricing.deposit.GetOr(0) >= 0 ==> price >= pricing.deductible
  {
    if service == Swap then pricing.deductible + pricing.deposit.GetOr(0) else pricing.deductible
  }

  /**
   * The services differ in price by the deposit only: a swap costs exactly
   * the deposit more than any other service, and all other services cost the
   * same.
   */
  lemma PriceDiffersByDeposit(service: ServiceOption, other: ServiceOption, pricing: Pricing)
    ensures service != Swap ==>
      CalculatePrice(Swap, pricing) == CalculatePrice(service, pricing) + pricing.deposit.GetOr(0)
    ensures service != Swap && other != Swap ==>
      CalculatePrice(service, pricing) == CalculatePrice(other, pricing)
  {
  }

  /** The back-to-options button is shown except for service type 1 (forced theft/loss). */
  function BackButtonShown(serviceTypeId: int): (shown: bool)
    ensures !shown <==> serviceTypeId == 1
  {
    serviceTypeId != 1
  }

  /** `goToOptions`: back to the options step; nothing else changes. */
  function GoToOptions(s: State): (r: State)
    requires s.flowStep == Payment
    ensures r.flowStep == Options
    ensures Changed(s, r) == {FlowStepField}
  {
    s.(flowStep := Options)
  }

  /** `selectPaymentMethod`: the chosen method and no payment error. */
  function SelectPaymentMethod(s: State, paymentMethod: PaymentMethod): (r: State)
    requires s.flowStep == Payment
    ensures r.selectedPaymentMethod == paymentMethod && r.paymentError.None?
    ensures Changed(s, r) <= {MethodField, ErrorField}
  {
    s.(selectedPaymentMethod := paymentMethod, paymentError := None)
  }

  /**
   * `submitPayment`: a card payment completes the flow; a Swish payment fails
   * with `failureMessage` and the flow stays at payment.
   */
  function SubmitPayment(s: State, failureMessage: string): (r: State)
    requires s.flowStep == Payment
    ensures s.selectedPaymentMethod == Card ==> r.flowStep == Complete && Changed(s, r) == {FlowStepField}
    ensures s.selectedPaymentMethod == Swish ==>
      r.flowStep == Payment && r.paymentError == Some(failureMessage) && Changed(s, r) <= {ErrorField}
  {
    if s.selectedPaymentMethod == Card then s.(flowStep := Complete)
    else s.(paymentError := Some(failureMessage))
  }
}
