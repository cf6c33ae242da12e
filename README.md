# Case flow and SOAP stock lookup: a verified model

This Dafny project models the two deterministic parts of a claims and service flow.

* **The server's SOAP stock-lookup helpers.**
  * `parseItemModel` splits a free-text device name such as "iPhone 11 128GB" into a model and a storage capacity.
  * `createSoapRequestSchema` builds the SwapStockLookUpVer2 SOAP 1.1 request envelope.
  * `parseSoapResponse` turns the parsed, namespace-stripped response tree into `{isAvailable, colors}`.
* **The client's case flow state machine.** The `State` record moves through the steps options, payment and complete. It is driven by:
  * the handlers of the options screen: select service, select colour, proceed to payment;
  * the handlers of the payment screen: back to options, select payment method, submit payment;
  * the gates that enable those controls: the swap-option and proceed gates, the filtered service list, and the payment screen's render and back-button conditions.
  * The payment screen's price computation is modelled too.

Files and modules:

| file | module | what it holds |
|---|---|---|
| `optional.dfy` | `Optional` | `Option`, standing for TypeScript's `T \| null` |
| `text.dfy` | `Text` | the JavaScript string operations `parseItemModel` uses (`lastIndexOf` for one character, `includes`, and `substring` as slicing), template-literal concatenation, and the model's own `StartsWith`/`EndsWith` predicates for stating the envelope's first and last tags |
| `js_values.dfy` | `JsValues` | the parsed object tree (`JsVal`), JavaScript truthiness, and property access that can throw |
| `soap.dfy` | `Soap` | `ParseItemModel`, `CreateSoapRequestSchema`, `ParseSoapResponse` and their lemmas |
| `case_types.dfy` | `CaseTypes` | `ServiceOption`, `FlowStep`, `PaymentMethod`, `State`, `Action`, the pricing fields of a case, and `Changed` |
| `service_option_screen.dfy` | `ServiceOptionScreen` | the options screen's service list, handlers and gates |
| `payment_screen.dfy` | `PaymentScreen` | the payment screen's render condition, price, back-button gate and handlers |
| `case_flow.dfy` | `CaseFlow` | the gated step function, the flow invariant, and replay of event sequences |

Modelling choices:

* **The handlers are pure functions.** Each source handler is a record update `setState(prev => ({...prev, ...}))`, so each becomes a pure function from `State` to `State`.
* **Frame properties.** `CaseTypes.Changed(s, r)` is the set of fields on which two states differ. Every handler's contract bounds that set, which says "only these fields change".
* **Screen gating.** The handlers do not test `flowStep`. The flow manager renders the options screen only at `options` and the payment screen only at `payment`. So the options-screen handlers require `flowStep == Options`, and the payment-screen handlers require `flowStep == Payment`.
* **`CaseFlow.Enabled`** adds the remaining on-screen conditions:
  * the case data is loaded;
  * the radio options offered, with the swap option disabled when `isSwapOptionDisabled` holds;
  * the colour picker is shown, and the colour is one it lists;
  * the proceed button is enabled;
  * the payment screen renders;
  * the back button is shown only when `serviceTypeId != 1`.
* **Events.** The `Action` union of `types.ts` is the vocabulary of events. `PAYMENT_SUCCESS` and `PAYMENT_FAIL` are the two outcomes of `submitPayment`: card and Swish.
* **Types rule out the rest.** `flowStep` is always one of its three steps. `selectedPaymentMethod` is always card or Swish and never null. `ServiceOption` is the closed set of three. In pricing the deductible is required and the deposit optional. `guid`, `selectedService`, `selectedColor` and `paymentError` are `Option`s.
* **Parsed responses.** A parsed response is a `JsVal`: undefined (an absent property), null, a boolean, a number, a string, an array or an object. Reading a property of undefined or null is the thrown `TypeError`; the catch in `parseSoapResponse` turns it into the unavailable result. So `ParseSoapResponse` is total.
* **Colours as found.** `colors` holds each item's `Color` value as found, which can be undefined or a non-string. The code does not check it.

Two behaviours of the code worth knowing, which the model keeps:

* `isProceedDisabled` (`ServiceOptionScreen.tsx:57`) does not test stock availability. Only the swap radio and the colour picker do, through `isSwapOptionDisabled`.
* `selectColor` sets the colour for any service. Only the colour picker's render condition (`ServiceOptionScreen.tsx:87`: mounted, swap selected, swap not disabled) confines it to a swap, and `CaseFlow.Enabled` models that condition.

## Model

| member | source | states |
|---|---|---|
| `Text.LastIndexOf` | server/src/utils/soap.ts:2 | the index of the last space, or -1 exactly when there is none; nothing after it is a space |
| `Text.Includes` | server/src/utils/soap.ts:14 | true exactly when the unit text occurs as a contiguous substring |
| `JsValues.Member` | server/src/utils/soap.ts:53 | a property read throws exactly on undefined or null; reading an object's own property yields its value, a missing one yields undefined; a defined result is always an object's own property |
| `JsValues.Falsy` | server/src/utils/soap.ts:55 | falsy exactly for undefined, null, `false`, `0` and `""`; so `true`, every other number, every non-empty string and every array and object, even an empty one, is truthy |
| `JsValues.Path` | server/src/utils/soap.ts:53 | an empty chain is the value itself; a one-key chain is one property read; any chain on undefined or null throws |
| `JsValues.PathAppend` | server/src/utils/soap.ts:62 | reading a chain `a + b` is reading `a` and then `b` from where it ends, failing as soon as either part throws |
| `Soap.SplitAtLastSpace` | server/src/utils/soap.ts:9-18 | at the last space, the split kept when the tail names a capacity and the whole text otherwise both have a space-free storage, rejoin to the input when storage is non-empty, and have empty storage exactly when the model is the whole input |
| `Soap.ParseItemModel` | server/src/utils/soap.ts:1-19 | no space: the whole text with empty storage. Storage never contains a space. Non-empty storage carries "GB" or "TB" and `model + " " + storage` is the input. Storage is empty exactly when the model is the whole input |
| `Soap.ParseItemModelAtLastSpace` | server/src/utils/soap.ts:9-18 | at the last space, the split is kept exactly when the tail holds "GB" or "TB"; otherwise the result is the whole text with empty storage |
| `Soap.ParseItemModelJoins` | server/src/utils/soap.ts:1-19 | joining model and storage back gives the input, for every input |
| `Soap.ParseItemModelSplitsJoin` | server/src/utils/soap.ts:9-15 | a model, a space and a space-free capacity split back into exactly that model and capacity |
| `Soap.ParseItemModelExampleStorage` | server/src/utils/soap.ts:9-15 | "iPhone 11 128GB" gives model "iPhone 11" and storage "128GB" |
| `Soap.ParseItemModelExampleNoUnit` | server/src/utils/soap.ts:12-18 | "Macbook Pro" keeps the whole text as model, with empty storage |
| `Soap.ParseItemModelExampleNoSpace` | server/src/utils/soap.ts:4-7 | "iPhone" keeps the whole text as model, with empty storage |
| `Soap.EnvelopeFrame` | server/src/utils/soap.ts:30-48 | the envelope starts with the root element's whole start tag, declaring the SOAP 1.1 envelope namespace and the `tem` and `icp` namespaces its children use, and ends with its closing tag |
| `Soap.CredentialsBlockElements` | server/src/utils/soap.ts:34-38 | the credentials block holds each credential verbatim inside its element |
| `Soap.LookUpItemBlockElements` | server/src/utils/soap.ts:39-45 | the look-up item block holds brand, model, stock name and storage verbatim inside their elements, and an empty colour element |
| `Soap.EnvelopeCredentials` | server/src/utils/soap.ts:34-38 | password, database and user name each appear verbatim inside their elements |
| `Soap.EnvelopeItem` | server/src/utils/soap.ts:39-45 | brand, model, stock name and storage appear verbatim inside their elements; the colour element is empty |
| `Soap.EnvelopeStructure` | server/src/utils/soap.ts:30-48 | the envelope holds an empty header and a body element; the body holds the one `SwapStockLookUpVer2` element, which holds the `Credentials` element and the `LookUpItem` element, each laid out as the template lays it out |
| `Soap.SoapRequest` | server/src/utils/soap.ts:30-48 | the envelope for given split parts: the root start tag with its SOAP 1.1, `tem` and `icp` namespace declarations, and the closing root tag; an empty header; a body holding the operation element, which holds the credentials block (password, database, user name) and the look-up item block (brand, empty colour, model, stock name, storage); every value embedded literally |
| `Soap.CreateSoapRequestSchema` | server/src/utils/soap.ts:21-49 | the SOAP 1.1 envelope, whose root start tag declares the `tem` and `icp` namespaces, with an empty header and a body holding one `SwapStockLookUpVer2` element; the credentials block carries the three credentials and the look-up item block carries the brand, the parsed model, the parsed storage, the stock name and an empty colour, all literally and unescaped |
| `Soap.ItemColors` | server/src/utils/soap.ts:69 | mapping to `Color` throws exactly when some item is nullish; otherwise one colour per item, in order |
| `Soap.AsList` | server/src/utils/soap.ts:68 | an array is taken as the list of items; any other value becomes a one-element list; the list is empty only for an empty array |
| `Soap.ParseSoapResponse` | server/src/utils/soap.ts:51-76 | never fails, and on every path (the caught ones included) `isAvailable` equals "colours is non-empty" |
| `Soap.NoResultIsUnavailable` | server/src/utils/soap.ts:53-57 | a result path that throws, or a falsy result node, gives `{false, []}` |
| `Soap.StatusNotTrueIsUnavailable` | server/src/utils/soap.ts:58-60 | a status other than the boolean `true` gives `{false, []}` |
| `Soap.NoItemsIsUnavailable` | server/src/utils/soap.ts:62-66 | a missing item container (the access throws) or a falsy item list gives `{false, []}` |
| `Soap.ColorsFollowItems` | server/src/utils/soap.ts:68-75 | one colour per listed item in input order, duplicates kept; a nullish item makes the map throw, giving `{false, []}` |
| `Soap.SingleItemIsOneColor` | server/src/utils/soap.ts:68 | a single item not in a list is a one-element list: available, with exactly its colour |
| `Soap.AvailableIff` | server/src/utils/soap.ts:51-76 | available exactly when result, status `true` and a truthy, non-empty item list are present and no item is nullish |
| `Soap.StatusTrueWithoutItemsIsUnavailable` | server/src/utils/soap.ts:71 | status `true` with an empty item list is still unavailable: availability follows the colours, not the status |
| `ServiceOptionScreen.WithoutTheftLost` | client/src/components/flow/ServiceOptionScreen.tsx:42 | keeps exactly the entries that are not theft/loss, never more entries than given, and all entries when none is theft/loss |
| `ServiceOptionScreen.WithoutTheftLostAppend` | client/src/components/flow/ServiceOptionScreen.tsx:42 | the filter keeps order: filtering `a + b` gives the filtered `a` followed by the filtered `b` |
| `ServiceOptionScreen.AvailableOptions` | client/src/components/flow/ServiceOptionScreen.tsx:42 | an entry is offered exactly when it is one of the three options and not theft/loss |
| `ServiceOptionScreen.AvailableOptionsAreDropOffThenSwap` | client/src/components/flow/ServiceOptionScreen.tsx:13-17 | the offered options are exactly drop-off then swap, in that order |
| `ServiceOptionScreen.OfferedIsNotTheftLost` | client/src/components/flow/ServiceOptionScreen.tsx:42 | a service is offered exactly when it is not theft/loss |
| `ServiceOptionScreen.SelectService` | client/src/components/flow/ServiceOptionScreen.tsx:45-47 | a non-null service is set and the colour cleared, and only those two fields change; null changes nothing |
| `ServiceOptionScreen.SelectColor` | client/src/components/flow/ServiceOptionScreen.tsx:48-50 | a truthy colour is set and only the colour changes; null or "" changes nothing |
| `ServiceOptionScreen.ProceedToPayment` | client/src/components/flow/ServiceOptionScreen.tsx:51-53 | step becomes payment and the payment error null; service, colour, method and guid are untouched |
| `ServiceOptionScreen.IsSwapOptionDisabled` | client/src/components/flow/ServiceOptionScreen.tsx:56 | disabled exactly when the check is not loading and no available result is present; when enabled after loading, a consistent result lists a colour |
| `ServiceOptionScreen.ColorPickerShown` | client/src/components/flow/ServiceOptionScreen.tsx:87 | the colour picker shows exactly when mounted with swap selected and the swap option not disabled |
| `ServiceOptionScreen.IsProceedDisabled` | client/src/components/flow/ServiceOptionScreen.tsx:57 | enabled exactly when mounted with a service chosen, and a truthy colour for a swap; stock availability plays no part |
| `PaymentScreen.Renders` | client/src/components/flow/PaymentScreen.tsx:54 | the screen renders exactly when case data and a selected service are present |
| `PaymentScreen.CalculatePrice` | client/src/components/flow/PaymentScreen.tsx:59-62 | only a swap can cost other than the deductible; a missing or zero deposit makes every service cost the deductible; with a non-negative deposit no price is below the deductible |
| `PaymentScreen.PriceDiffersByDeposit` | client/src/components/flow/PaymentScreen.tsx:59-62 | a swap costs exactly the deposit more than any other service, and all services other than swap cost the same |
| `PaymentScreen.BackButtonShown` | client/src/components/flow/PaymentScreen.tsx:82 | the back button is hidden exactly for service type 1 |
| `PaymentScreen.GoToOptions` | client/src/components/flow/PaymentScreen.tsx:67 | step becomes options and it is the only field that changes |
| `PaymentScreen.SelectPaymentMethod` | client/src/components/flow/PaymentScreen.tsx:68 | the method is set and the error cleared, and nothing else changes |
| `PaymentScreen.SubmitPayment` | client/src/components/flow/PaymentScreen.tsx:69-75 | card: step becomes complete and nothing else changes. Swish: the error becomes the failure message and the step stays at payment |
| `CaseFlow.Enabled` | client/src/components/FlowManager.tsx:24-35 | an action is possible only with case data loaded and never at complete; options-screen actions only at the options step, payment-screen actions only at the payment step |
| `CaseFlow.Step` | client/src/components/FlowManager.tsx:24-35 | each enabled action has its handler's effect, stated field by field: a service is set with the colour cleared; a non-empty colour is set and an empty one changes nothing; proceeding moves to payment and clears the error; a card payment moves to complete and changes nothing else; a Swish failure sets the error and stays at payment; going back moves to options and changes nothing else; choosing a method sets it and clears the error. No action changes the case's guid |
| `CaseFlow.StepPreservesInv` | client/src/components/FlowManager.tsx:24-35 | every enabled action, whether an options-screen handler (ServiceOptionScreen.tsx:45-53) or a payment-screen handler (PaymentScreen.tsx:67-75), keeps the flow invariant: past options the choice is complete, a colour implies a swap, complete implies card, an error implies Swish |
| `CaseFlow.RunPreservesInv` | client/src/components/FlowManager.tsx:24-35 | any sequence of enabled actions keeps the flow invariant |
| `CaseFlow.StepOrder` | client/src/components/FlowManager.tsx:24-35 | the step moves only options to payment (proceed), payment to complete (card), or payment to options (back, case type not 1) |
| `CaseFlow.BackToOptionsUnlessForced` | client/src/components/flow/PaymentScreen.tsx:82-89 | on the payment screen of a case whose type is not 1, going back is possible and returns to the options step |
| `CaseFlow.CompleteIsFinal` | client/src/components/FlowManager.tsx:30-31 | at complete no flow action is enabled |
| `CaseFlow.CompleteAcceptsNothing` | client/src/components/FlowManager.tsx:30-31 | from complete, no non-empty event sequence is accepted |
| `CaseFlow.PaymentScreenRendersInFlow` | client/src/components/flow/PaymentScreen.tsx:54 | under the invariant, at payment with a case loaded the payment screen renders rather than null |
| `CaseFlow.StepNeverSelectsTheftLost` | client/src/components/flow/ServiceOptionScreen.tsx:42-47 | no enabled action makes theft/loss the selected service |
| `CaseFlow.SwapSelectableMeansColors` | client/src/components/flow/ServiceOptionScreen.tsx:56 | after a stock check, selecting swap is possible only when the normalised response lists a colour |
| `CaseFlow.ForcedTheftLostStaysPastOptions` | client/src/components/flow/PaymentScreen.tsx:82-89 | for a case of type 1, a flow past options never returns to options |
| `CaseFlow.DropOffPaidByCardCompletes` | client/src/components/flow/PaymentScreen.tsx:70-71 | drop-off selected with card: proceed then pay is accepted and ends at complete |
| `CaseFlow.SwapPaidByCardCompletes` | client/src/components/flow/ServiceOptionScreen.tsx:45-53 | after a stock check listing colour `c` (non-empty), with card chosen: select swap, select `c`, proceed and pay are all accepted, ending at complete with `c` kept as the colour |
| `CaseFlow.SwishPaymentStaysAtPayment` | client/src/components/flow/PaymentScreen.tsx:72-74 | a Swish submission leaves the flow at payment with the failure message as error |

## Left out

- HTTP routes (`server/src/routes/stock.ts`, `server/src/routes/case.ts`): network calls, request validation and status mapping are I/O plumbing.
- XML text parsing: the model starts from the parsed tree the XML parser produces.
- Environment variables: the SOAP credentials are a `Credentials` parameter. An unset variable would be interpolated as the text "undefined"; the model takes whatever text it is given.
- JavaScript numbers: prices are `int` (minor units) and parsed numbers are `real`. NaN, float rounding and the two-decimal price display are not modelled.
- JsValues.Member: reading a key on a string, number, boolean or array gives undefined. Built-in properties such as `length` are not modelled, since the response normaliser reads none of them.
- CaseFlow.Enabled: the handlers do not test the step themselves; the step preconditions stand for the screen the flow manager renders.
- CaseFlow.View: the two mount flags (the flow manager's and the screen's) are folded into one `isMounted` input.
- CaseFlow.View: the page's own condition for showing the flow (not loading, no error, a guid set) is not modelled.
- PaymentScreen.SubmitPayment: the source branches on the rendered `state` but updates `prev`; the model treats both as one state, since they differ only across batched updates.
- The `console.error` call in the catch of `parseSoapResponse` (`server/src/utils/soap.ts:73`) is logging only; the model keeps the unavailable result it returns.
- The Swish failure text comes from the message catalog; the model takes it as the `failureMessage` parameter.
- Case bootstrap, stale-fetch guard, snapshot persistence and the delayed redirect (`client/src/app/[locale]/[guid]/page.tsx`): browser storage, timers and asynchronous fetching are outside this model.
- The completion screen (`FinalScreen.tsx`): it only clears browser storage and shows translated text.
- React rendering, translations, the colour-class map, the stock fetch through SWR, and the remaining UI and server bootstrap files: UI and framework wiring.
