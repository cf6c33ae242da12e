/**
 * The case flow as a state machine. The flow manager renders the options
 * screen at step `Options` and the payment screen at step `Payment`; an
 * action can only happen while the control that fires it is on screen, and
 * its effect is the handler's record update.
 */
module CaseFlow {
  import opened Optional
  import opened CaseTypes
  import Soap
  import JsValues
  import ServiceOptionScreen
  import PaymentScreen

  /** What the page knows when the user acts, besides the flow state. */
  datatype View = View(
    caseData: Option<CaseData>,
    isMounted: bool,
    isStockLoading: bool,
    stockData: Option<Soap.StockResult>)

  function SwapDisabled(v: View): bool {
    ServiceOptionScreen.IsSwapOptionDisabled(v.isStockLoading, v.stockData)
  }

  /**
   * The control that fires `a` is on screen: an options-screen action only at
   * the options step, a payment-screen action only at the payment step, and
   * nothing once the flow is complete.
   */
  function Enabled(v: View, s: State, a: Action): (enabled: bool)
    ensures enabled ==> v.caseData.Some? && s.flowStep != Complete
    ensures enabled ==> (s.flowStep == Options <==> a.SelectService? || a.SelectColor? || a.ProceedToPayment?)
  {
    v.caseData.Some? &&
    match a
    case SelectService(service) =>
      s.flowStep == Options && ServiceOptionScreen.Offered(service)
      && !(service == Swap && SwapDisabled(v))
    case SelectColor(color) =>
      s.flowStep == Options && ServiceOptionScreen.ColorPickerShown(v.isMounted, s, SwapDisabled(v))
      && v.stockData.Some? && JsValues.Str(color) in v.stockData.value.colors
    case ProceedToPayment =>
      s.flowStep == Options && !ServiceOptionScreen.IsProceedDisabled(v.isMounted, s)
    case PaymentSuccess =>
      s.flowStep == Payment && PaymentScreen.Renders(v.caseData, s) && s.selectedPaymentMethod == Card
    case PaymentFail(_) =>
      s.flowStep == Payment && PaymentScreen.Renders(v.caseData, s) && s.selectedPaymentMethod == Swish
    case GoToOptions =>
      s.flowStep == Payment && PaymentScreen.Renders(v.caseData, s)
      && PaymentScreen.BackButtonShown(v.caseData.value.serviceTypeId)
    case SelectPaymentMethod(_) =>
      s.flowStep == Payment && PaymentScreen.Renders(v.caseData, s)
  }

  /** The state after an enabled action: the handler's update. */
  function Step(v: View, s: State, a: Action): (r: State)
    requires Enabled(v, s, a)
    ensures r.guid == s.guid
    ensures a.SelectService? ==>
      r.selectedService == Some(a.service) && r.selectedColor.None? && Changed(s, r) <= {ServiceField, ColorField}
    ensures a.SelectColor? && a.color != "" ==> r.selectedColor == Some(a.color) && Changed(s, r) <= {ColorField}
    ensures a.SelectColor? && a.color == "" ==> r == s
    ensures a == ProceedToPayment ==>
      r.flowStep == Payment && r.paymentError.None? && Changed(s, r) <= {FlowStepField, ErrorField}
    ensures a == PaymentSuccess ==> r.flowStep == Complete && Changed(s, r) == {FlowStepField}
    ensures a.PaymentFail? ==>
      r.flowStep == Payment && r.paymentError == Some(a.message) && Changed(s, r) <= {ErrorField}
    ensures a == GoToOptions ==> r.flowStep == Options && Changed(s, r) == {FlowStepField}
    ensures a.SelectPaymentMethod? ==>
      r.selectedPaymentMethod == a.paymentMethod && r.paymentError.None? && Changed(s, r) <= {MethodField, ErrorField}
  {
    match a
    case SelectService(service) => ServiceOptionScreen.SelectService(s, Some(service))
    case SelectColor(color) => ServiceOptionScreen.SelectColor(s, Some(color))
    case ProceedToPayment => ServiceOptionScreen.ProceedToPayment(s)
    case PaymentSuccess => PaymentScreen.SubmitPayment(s, "")
    case PaymentFail(message) => PaymentScreen.SubmitPayment(s, message)
    case GoToOptions => PaymentScreen.GoToOptions(s)
    case SelectPaymentMethod(m) => PaymentScreen.SelectPaymentMethod(s, m)
  }

  /**
   * What every reachable flow state satisfies: past the options step the
   * choice is complete; a colour goes with a swap; a completed flow was paid
   * by card; a payment error comes from a Swish attempt.
   */
  predicate Inv(s: State) {
    && (s.flowStep != Options ==> ChoiceComplete(s))
    && (s.selectedColor.Some? ==> s.selectedService == Some(Swap))
    && (s.flowStep == Complete ==> s.selectedPaymentMethod == Card)
    && (s.paymentError.Some? ==> s.selectedPaymentMethod == Swish)
  }

  lemma {:induction false} StepPreservesInv(v: View, s: State, a: Action)
    requires Inv(s) && Enabled(v, s, a)
    ensures Inv(Step(v, s, a))
  {
    match a
    case SelectService(service) =>
    case SelectColor(color) =>
    case ProceedToPayment =>
    case PaymentSuccess =>
    case PaymentFail(_) =>
    case GoToOptions =>
    case SelectPaymentMethod(_) =>
  }

  /**
   * The step only moves along options -> payment -> complete, or back from
   * payment to options when the case type allows it; it never leaves complete.
   */
  lemma StepOrder(v: View, s: State, a: Action)
    requires Enabled(v, s, a)
    ensures var r := Step(v, s, a);
      || r.flowStep == s.flowStep
      || (s.flowStep == Options && r.flowStep == Payment && a == ProceedToPayment)
      || (s.flowStep == Payment && r.flowStep == Complete && a == PaymentSuccess)
      || (s.flowStep == Payment && r.flowStep == Options && a == GoToOptions
          && v.caseData.value.serviceTypeId != 1)
  {
  }

  /**
   * The converse of the back clause of `StepOrder`: on the payment screen of
   * any case whose type is not 1, the back button is there and returns to
   * the options step.
   */
  lemma BackToOptionsUnlessForced(v: View, s: State)
    requires v.caseData.Some? && v.caseData.value.serviceTypeId != 1
    requires s.flowStep == Payment && s.selectedService.Some?
    ensures Enabled(v, s, GoToOptions)
    ensures Step(v, s, GoToOptions).flowStep == Options
  {
  }

  /** At step complete no control of the flow is on screen. */
  lemma CompleteIsFinal(v: View, s: State, a: Action)
    requires s.flowStep == Complete
    ensures !Enabled(v, s, a)
  {
  }

  /** With the invariant, the payment screen renders whenever a case is loaded. */
  lemma PaymentScreenRendersInFlow(caseData: Option<CaseData>, s: State)
    requires Inv(s) && s.flowStep == Payment && caseData.Some?
    ensures PaymentScreen.Renders(caseData, s)
  {
  }

  /** The user never selects theft/loss: only a restored or initial state can hold it. */
  lemma {:induction false} StepNeverSelectsTheftLost(v: View, s: State, a: Action)
    requires Enabled(v, s, a)
    ensures Step(v, s, a).selectedService == Some(TheftLost) ==> s.selectedService == Some(TheftLost)
  {
    if a.SelectService? {
      ServiceOptionScreen.OfferedIsNotTheftLost(a.service);
    }
  }

  /**
   * The swap option is selectable after the stock check only when the
   * normalised response lists a colour.
   */
  lemma {:induction false} SwapSelectableMeansColors(v: View, s: State, root: JsValues.JsVal)
    requires v.stockData == Some(Soap.ParseSoapResponse(root)) && !v.isStockLoading
    requires Enabled(v, s, SelectService(Swap))
    ensures |Soap.ParseSoapResponse(root).colors| > 0
  {
    assert !SwapDisabled(v);
  }

  /** One user action together with what the page showed at that moment. */
  datatype Event = Event(view: View, action: Action)

  /** Replays events; `None` when some action was not on screen when it happened. */
  function Run(s: State, events: seq<Event>): Option<State>
    decreases |events|
  {
    if events == [] then Some(s)
    else if Enabled(events[0].view, s, events[0].action) then
      Run(Step(events[0].view, s, events[0].action), events[1..])
    else None
  }

  lemma {:induction false} RunPreservesInv(s: State, events: seq<Event>)
    requires Inv(s) && Run(s, events).Some?
    ensures Inv(Run(s, events).value)
    decreases |events|
  {
    if events != [] {
      StepPreservesInv(events[0].view, s, events[0].action);
      RunPreservesInv(Step(events[0].view, s, events[0].action), events[1..]);
    }
  }

  /** Every event happens on a page for a case of type `serviceTypeId`. */
  predicate CaseTypeIs(events: seq<Event>, serviceTypeId: int) {
    forall i :: 0 <= i < |events| ==>
      events[i].view.caseData.Some? ==> events[i].view.caseData.value.serviceTypeId == serviceTypeId
  }

  /** A forced theft/loss case (type 1) that is past the options step never returns to it. */
  lemma {:induction false} ForcedTheftLostStaysPastOptions(s: State, events: seq<Event>)
    requires s.flowStep != Options && CaseTypeIs(events, 1) && Run(s, events).Some?
    ensures Run(s, events).value.flowStep != Options
    decreases |events|
  {
    if events != [] {
      var e := events[0];
      StepOrder(e.view, s, e.action);
      assert CaseTypeIs(events[1..], 1) by {
        forall i | 0 <= i < |events[1..]| ensures
          events[1..][i].view.caseData.Some? ==> events[1..][i].view.caseData.value.serviceTypeId == 1
        {
          assert events[1..][i] == events[i + 1];
        }
      }
      ForcedTheftLostStaysPastOptions(Step(e.view, s, e.action), events[1..]);
    }
  }

  /** Once complete, the flow stays complete: no further event is accepted. */
  lemma CompleteAcceptsNothing(s: State, events: seq<Event>)
    requires s.flowStep == Complete && events != []
    ensures Run(s, events).None?
  {
    CompleteIsFinal(events[0].view, s, events[0].action);
  }

  /**
   * A drop-off case at the options step, with drop-off selected and a card
   * chosen, proceeds to payment and completes on a card payment.
   */
  lemma DropOffPaidByCardCompletes(v: View, s: State)
    requires v.caseData.Some? && v.isMounted
    requires s.flowStep == Options && s.selectedService == Some(DropOff) && s.selectedPaymentMethod == Card
    ensures Run(s, [Event(v, ProceedToPayment), Event(v, PaymentSuccess)]).Some?
    ensures Run(s, [Event(v, ProceedToPayment), Event(v, PaymentSuccess)]).value.flowStep == Complete
  {
    var events := [Event(v, ProceedToPayment), Event(v, PaymentSuccess)];
    var s1 := Step(v, s, ProceedToPayment);
    assert events[1..] == [Event(v, PaymentSuccess)];
    assert Run(s, events) == Run(s1, events[1..]);
  }

  /**
   * A swap case at the options step, after a stock check that found the
   * device available in colour `c`, with a card chosen: selecting swap, then
   * `c`, proceeding and paying is accepted and completes with `c` kept.
   */
  lemma SwapPaidByCardCompletes(v: View, s: State, c: string)
    requires v.caseData.Some? && v.isMounted && !v.isStockLoading
    requires v.stockData.Some? && v.stockData.value.isAvailable && JsValues.Str(c) in v.stockData.value.colors
    requires c != ""
    requires s.flowStep == Options && s.selectedPaymentMethod == Card
    ensures var events := [Event(v, SelectService(Swap)), Event(v, SelectColor(c)),
                           Event(v, ProceedToPayment), Event(v, PaymentSuccess)];
      Run(s, events).Some? && Run(s, events).value.flowStep == Complete
      && Run(s, events).value.selectedColor == Some(c)
  {
    var events := [Event(v, SelectService(Swap)), Event(v, SelectColor(c)),
                   Event(v, ProceedToPayment), Event(v, PaymentSuccess)];
    ServiceOptionScreen.OfferedIsNotTheftLost(Swap);
    var s1 := Step(v, s, SelectService(Swap));
    var s2 := Step(v, s1, SelectColor(c));
    var s3 := Step(v, s2, ProceedToPayment);
    var s4 := Step(v, s3, PaymentSuccess);
    assert events[1..][1..][1..][1..] == [];
    assert Run(s3, events[1..][1..][1..]) == Run(s4, []);
    assert Run(s2, events[1..][1..]) == Run(s3, events[1..][1..][1..]);
    assert Run(s1, events[1..]) == Run(s2, events[1..][1..]);
    assert Run(s, events) == Run(s1, events[1..]);
  }

  /** A Swish payment fails and leaves the flow at payment with an error. */
  lemma SwishPaymentStaysAtPayment(v: View, s: State, message: string)
    requires Enabled(v, s, PaymentFail(message))
    ensures Step(v, s, PaymentFail(message)).flowStep == Payment
    ensures Step(v, s, PaymentFail(message)).paymentError == Some(message)
  {
  }
}
