/**
 * The client's flow state and the case fields the flow reads: the service
 * options, the three flow steps, the two payment methods, the `State` record,
 * the `Action` union and the partner pricing of a case.
 */
module CaseTypes {
  import opened Optional

  datatype ServiceOption = TheftLost | DropOff | Swap

  datatype FlowStep = Options | Payment | Complete

  datatype PaymentMethod = Card | Swish

  /** The flow state shared by every screen; the nullable fields are `Option`s. */
  datatype State = State(
    guid: Option<string>,
    flowStep: FlowStep,
    selectedService: Option<ServiceOption>,
    selectedColor: Option<string>,
    paymentError: Option<string>,
    selectedPaymentMethod: PaymentMethod)

  /** The user actions of the flow. */
  datatype Action =
    | SelectService(service: ServiceOption)
    | SelectColor(color: string)
    | ProceedToPayment
    | PaymentSuccess
    | PaymentFail(message: string)
    | GoToOptions
    | SelectPaymentMethod(paymentMethod: PaymentMethod)

  /** `orderData.partnerSpecific.insuranceLtd`: the deductible is always given, the deposit may be missing. */
  datatype Pricing = Pricing(deductible: int, deposit: Option<int>)

  /** The fields of a fetched case the flow reads. */
  datatype CaseData = CaseData(serviceTypeId: int, pricing: Pricing)

  /** The names of the fields of `State`, for saying which of them an update touches. */
  datatype Field = GuidField | FlowStepField | ServiceField | ColorField | ErrorField | MethodField

  /** The fields on which two states differ. */
  function Changed(s: State, t: State): (fields: set<Field>)
    ensures fields == {} <==> s == t
  {
    (if s.guid != t.guid then {GuidField} else {})
    + (if s.flowStep != t.flowStep then {FlowStepField} else {})
    + (if s.selectedService != t.selectedService then {ServiceField} else {})
    + (if s.selectedColor != t.selectedColor then {ColorField} else {})
    + (if s.paymentError != t.paymentError then {ErrorField} else {})
    + (if s.selectedPaymentMethod != t.selectedPaymentMethod then {MethodField} else {})
  }

  /** A colour is chosen: `state.selectedColor` is truthy (not null, not empty). */
  predicate ColorChosen(s: State) {
    s.selectedColor.Some? && s.selectedColor.value != ""
  }

  /** A service is chosen and, when it is a swap, so is a colour. */
  predicate ChoiceComplete(s: State) {
    s.selectedService.Some? && (s.selectedService.value == Swap ==> ColorChosen(s))
  }
}
