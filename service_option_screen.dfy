/**
 * The options screen: the service options it offers, the state updates of its
 * three handlers, and the two gates that enable its controls.
 */
module ServiceOptionScreen {
  import opened Optional
  import opened CaseTypes
  import Soap

  /** One radio option: a service and the message key of its label. */
  datatype ServiceEntry = ServiceEntry(id: ServiceOption, nameKey: string)

  const AllServiceOptions := [
    ServiceEntry(TheftLost, "theftLost"),
    ServiceEntry(DropOff, "dropOff"),
    ServiceEntry(Swap, "swap")]

  /** `options.filter(option => option.id !== 'THEFT_LOST')` */
  function WithoutTheftLost(options: seq<ServiceEntry>): (r: seq<ServiceEntry>)
    ensures forall e :: e in r <==> e in options && e.id != TheftLost
    ensures |r| <= |options|
    ensures (forall e :: e in options ==> e.id != TheftLost) ==> r == options
  {
    if options == [] then []
    else if options[0].id == TheftLost then WithoutTheftLost(options[1..])
    else [options[0]] + WithoutTheftLost(options[1..])
  }

  /** Filtering a concatenation filters each part and keeps them in order. */
  lemma {:induction false} WithoutTheftLostAppend(a: seq<ServiceEntry>, b: seq<ServiceEntry>)
    ensures WithoutTheftLost(a + b) == WithoutTheftLost(a) + WithoutTheftLost(b)
    decreases |a|
  {
    if a == [] {
      assert a + b == b;
    } else {
      assert (a + b)[0] == a[0] && (a + b)[1..] == a[1..] + b;
      WithoutTheftLostAppend(a[1..], b);
      if a[0].id != TheftLost {
        assert [a[0]] + WithoutTheftLost(a[1..]) + WithoutTheftLost(b)
          == [a[0]] + (WithoutTheftLost(a[1..]) + WithoutTheftLost(b));
      }
    }
  }

  /** The options the screen offers. */
  function AvailableOptions(): (options: seq<ServiceEntry>)
    ensures forall e :: e in options <==> e in AllServiceOptions && e.id != TheftLost
  {
    WithoutTheftLost(AllServiceOptions)
  }

  /** Drop-off then swap: theft/loss is never offered, and the order is kept. */
  lemma AvailableOptionsAreDropOffThenSwap()
    ensures AvailableOptions() == [ServiceEntry(DropOff, "dropOff"), ServiceEntry(Swap, "swap")]
  {
    assert AllServiceOptions[1..] == [ServiceEntry(DropOff, "dropOff"), ServiceEntry(Swap, "swap")];
  }

  /** A service the user can pick on this screen. */
  predicate Offered(service: ServiceOption) {
    exists e :: e in AvailableOptions() && e.id == service
  }

  lemma OfferedIsNotTheftLost(service: ServiceOption)
    ensures Offered(service) <==> service != TheftLost
  {
    AvailableOptionsAreDropOffThenSwap();
    if service == DropOff {
      assert AvailableOptions()[0].id == DropOff;
    } else if service == Swap {
      assert AvailableOptions()[1].id == Swap;
    }
  }

  /** `selectService`: a new service and no colour; a null selection changes nothing. */
  function SelectService(s: State, service: Option<ServiceOption>): (r: State)
    requires s.flowStep == Options
    ensures service.None? ==> r == s
    ensures service.Some? ==> r.selectedService == service && r.selectedColor.None?
    ensures Changed(s, r) <= {ServiceField, ColorField}
  {
    if service.Some? then s.(selectedService := service, selectedColor := None) else s
  }

  /** `selectColor`: the new colour; a null or empty colour changes nothing. */
  function SelectColor(s: State, color: Option<string>): (r: State)
    requires s.flowStep == Options
    ensures color.None? || color == Some("") ==> r == s
    ensures color.Some? && color.value != "" ==> r.selectedColor == color
    ensures Changed(s, r) <= {ColorField}
  {
    if color.Some? && color.value != "" then s.(selectedColor := color) else s
  }

  /** `proceedToPayment`: on to the payment step with no stale payment error. */
  function ProceedToPayment(s: State): (r: State)
    requires s.flowStep == Options
    ensures r.flowStep == Payment && r.paymentError.None?
    ensures Changed(s, r) <= {FlowStepField, ErrorField}
  {
    s.(flowStep := Payment, paymentError := None)
  }

  /**
   * `isSwapOptionDisabled`: the stock check has finished and did not report
   * the swap device available (no answer counts as not available).
   */
  function IsSwapOptionDisabled(isStockLoading: bool, stockData: Option<Soap.StockResult>): (disabled: bool)
    ensures disabled <==> !isStockLoading && (stockData.None? || !stockData.value.isAvailable)
    ensures !disabled && !isStockLoading && Soap.Consistent(stockData.value) ==>
      |stockData.value.colors| > 0
  {
    !isStockLoading && !(stockData.Some? && stockData.value.isAvailable)
  }

  /**
   * `isProceedDisabled`: the screen is not mounted yet, or the choice is not
   * complete. Stock availability is not part of this gate.
   */
  function IsProceedDisabled(isMounted: bool, s: State): (disabled: bool)
    ensures !disabled <==> isMounted && ChoiceComplete(s)
  {
    !isMounted || s.selectedService.None? || (s.selectedService == Some(Swap) && !ColorChosen(s))
  }

  /** The colour picker is shown: mounted, swap selected, and swap not disabled. */
  function ColorPickerShown(isMounted: bool, s: State, swapDisabled: bool): (shown: bool)
    ensures shown ==> s.selectedService == Some(Swap)
    ensures swapDisabled || !isMounted ==> !shown
    ensures isMounted && s.selectedService == Some(Swap) && !swapDisabled ==> shown
  {
    isMounted && s.selectedService == Some(Swap) && !swapDisabled
  }
}
