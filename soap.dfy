/**
 * The SOAP stock-lookup helpers of the server: splitting a free-text device
 * model ("iPhone 11 128GB") into model and storage, building the
 * SwapStockLookUpVer2 request envelope, and normalising the parsed response
 * into `{isAvailable, colors}`.
 */
module Soap {
  import opened Optional
  import opened Text
  import opened JsValues

  // ---------------------------------------------------------------------------
  // parseItemModel
  // ---------------------------------------------------------------------------

  datatype ParsedModel = ParsedModel(model: string, storage: string)

  /** The text holds one of the recognised capacity units (case-sensitive). */
  predicate HasCapacityUnit(t: string) {
    Includes(t, "GB") || Includes(t, "TB")
  }

  /** `i` is the position of the last space of `s`. */
  ghost predicate IsLastSpace(s: string, i: int) {
    0 <= i < |s| && s[i] == ' ' && ' ' !in s[i + 1..]
  }

  lemma LastSpaceUnique(s: string, i: int, j: int)
    requires IsLastSpace(s, i) && IsLastSpace(s, j)
    ensures i == j
  {
  }

  /**
   * At the last space `i`, both possible results meet the contract of
   * `ParseItemModel`: the split when the tail names a capacity, the whole
   * text otherwise.
   */
  lemma {:induction false} SplitAtLastSpace(fullModel: string, i: int)
    requires IsLastSpace(fullModel, i)
    ensures var p := if HasCapacityUnit(fullModel[i + 1..])
        then ParsedModel(fullModel[..i], fullModel[i + 1..]) else ParsedModel(fullModel, "");
      && ' ' in fullModel
      && ' ' !in p.storage
      && (p.storage != "" ==> HasCapacityUnit(p.storage) && p.model + " " + p.storage == fullModel)
      && (p.storage == "" <==> p.model == fullModel)
  {
    var model, storage := fullModel[..i], fullModel[i + 1..];
    assert fullModel == model + [fullModel[i]] + storage;
    if HasCapacityUnit(storage) {
      assert |storage| >= 2 && |model| < |fullModel|;
    }
  }

  /**
   * Splits at the last space and keeps the split only when the tail names a
   * capacity; otherwise the whole text is the model and storage is empty.
   */
  function ParseItemModel(fullModel: string): (p: ParsedModel)
    ensures ' ' !in fullModel ==> p == ParsedModel(fullModel, "")
    ensures ' ' !in p.storage
    ensures p.storage != "" ==> HasCapacityUnit(p.storage) && p.model + " " + p.storage == fullModel
    ensures p.storage == "" <==> p.model == fullModel
  {
    var lastSpaceIndex := LastIndexOf(fullModel, ' ');
    if lastSpaceIndex == -1 then
      ParsedModel(fullModel, "")
    else
      SplitAtLastSpace(fullModel, lastSpaceIndex);
      if HasCapacityUnit(fullModel[lastSpaceIndex + 1..]) then
        ParsedModel(fullModel[..lastSpaceIndex], fullModel[lastSpaceIndex + 1..])
      else
        ParsedModel(fullModel, "")
  }

  /**
   * At the last space, the split is kept exactly when the tail names a
   * capacity ("iPhone 11 128GB"), and dropped otherwise ("Macbook Pro").
   */
  lemma {:induction false} ParseItemModelAtLastSpace(fullModel: string, i: int)
    requires IsLastSpace(fullModel, i)
    ensures HasCapacityUnit(fullModel[i + 1..]) ==>
      ParseItemModel(fullModel) == ParsedModel(fullModel[..i], fullModel[i + 1..])
    ensures !HasCapacityUnit(fullModel[i + 1..]) ==>
      ParseItemModel(fullModel) == ParsedModel(fullModel, "")
  {
    var j := LastIndexOf(fullModel, ' ');
    assert IsLastSpace(fullModel, j);
    LastSpaceUnique(fullModel, i, j);
  }

  /** The text the stock service's model and storage fields came from. */
  function JoinItemModel(p: ParsedModel): string {
    if p.storage == "" then p.model else p.model + " " + p.storage
  }

  /** Splitting loses nothing: joining the two halves gives back the input. */
  lemma ParseItemModelJoins(fullModel: string)
    ensures JoinItemModel(ParseItemModel(fullModel)) == fullModel
  {
  }

  /**
   * Any model followed by a space and a space-free capacity is split back
   * into exactly those two parts.
   */
  lemma {:induction false} ParseItemModelSplitsJoin(model: string, storage: string)
    requires ' ' !in storage && HasCapacityUnit(storage)
    ensures ParseItemModel(model + " " + storage) == ParsedModel(model, storage)
  {
    var full := model + " " + storage;
    assert full[|model| + 1..] == storage;
    assert full[..|model|] == model;
    ParseItemModelAtLastSpace(full, |model|);
  }

  /** The three cases the helper is written for. */
  lemma ParseItemModelExampleStorage()
    ensures ParseItemModel("iPhone 11 128GB") == ParsedModel("iPhone 11", "128GB")
  {
    var full := "iPhone 11 128GB";
    assert full[10..] == "128GB" && full[..9] == "iPhone 11";
    assert OccursAt("128GB", "GB", 3);
    ParseItemModelAtLastSpace(full, 9);
  }

  lemma ParseItemModelExampleNoUnit()
    ensures ParseItemModel("Macbook Pro") == ParsedModel("Macbook Pro", "")
  {
    var full := "Macbook Pro";
    assert full[8..] == "Pro";
    ParseItemModelAtLastSpace(full, 7);
  }

  lemma ParseItemModelExampleNoSpace()
    ensures ParseItemModel("iPhone") == ParsedModel("iPhone", "")
  {
  }

  // ---------------------------------------------------------------------------
  // createSoapRequestSchema
  // ---------------------------------------------------------------------------

  /** The account values the server reads from its environment. */
  datatype Credentials = Credentials(userName: string, password: string, sesamDb: string, stockName: string)

  const SoapEnvelopeNamespace := "http://schemas.xmlsoap.org/soap/envelope/"

  /** The opening of the root element, up to its SOAP 1.1 namespace declaration. */
  const EnvelopeStart := "<x:Envelope xmlns:x=\"" + SoapEnvelopeNamespace + "\""

  /** The rest of the root's start tag: the service and data-contract namespaces. */
  const RootAttributes :=
    " xmlns:tem=\"http://tempuri.org/\" xmlns:icp=\"http://schemas.datacontract.org/2004/07/ICPE_Internal_API_DLL\">"

  const Header := "<x:Header/>"
  const BodyStart := "<x:Body>"
  const BodyEnd := "</x:Body>"
  const OperationStart := "<tem:SwapStockLookUpVer2>"
  const OperationEnd := "</tem:SwapStockLookUpVer2>"
  const EnvelopeEnd := "</x:Envelope>"

  // Line breaks of the template, each followed by the next line's indentation.
  const Break2 := "\n  "
  const Break6 := "\n      "
  const Break10 := "\n          "
  const Break14 := "\n              "
  const ElementBreak := "\n                  "

  /** `<icp:tag>value</icp:tag>`, the value interpolated as is, without escaping. */
  function Element(tag: string, value: string): string {
    "<icp:" + tag + ">" + value + "</icp:" + tag + ">"
  }

  /** The `tem:Credentials` element, cut at every interpolated value. */
  function CredentialsParts(c: Credentials): seq<string> {
    [ "<tem:Credentials>", ElementBreak,
      Element("Password", c.password), ElementBreak,
      Element("SesamDb", c.sesamDb), ElementBreak,
      Element("UserName", c.userName), Break14,
      "</tem:Credentials>" ]
  }

  function CredentialsBlock(c: Credentials): string {
    Concat(CredentialsParts(c))
  }

  /** The `tem:LookUpItem` element, cut at every interpolated value. */
  function LookUpItemParts(brand: string, p: ParsedModel, stockName: string): seq<string> {
    [ "<tem:LookUpItem>", ElementBreak,
      Element("Brand", brand), ElementBreak,
      Element("Color", ""), ElementBreak,
      Element("Model", p.model), ElementBreak,
      Element("StockName", stockName), ElementBreak,
      Element("Storage", p.storage), Break14,
      "</tem:LookUpItem>" ]
  }

  function LookUpItemBlock(brand: string, p: ParsedModel, stockName: string): string {
    Concat(LookUpItemParts(brand, p, stockName))
  }

  /** The `tem:SwapStockLookUpVer2` operation element: the credentials, then the item. */
  function OperationParts(c: Credentials, brand: string, p: ParsedModel): seq<string> {
    [ OperationStart, Break14,
      CredentialsBlock(c), Break14,
      LookUpItemBlock(brand, p, c.stockName), Break10,
      OperationEnd ]
  }

  function OperationElement(c: Credentials, brand: string, p: ParsedModel): string {
    Concat(OperationParts(c, brand, p))
  }

  /** The `x:Body` element, holding the one operation element. */
  function BodyParts(c: Credentials, brand: string, p: ParsedModel): seq<string> {
    [ BodyStart, Break10, OperationElement(c, brand, p), Break6, BodyEnd ]
  }

  function BodyElement(c: Credentials, brand: string, p: ParsedModel): string {
    Concat(BodyParts(c, brand, p))
  }

  /** The whole template literal: the root element around an empty header and the body. */
  function EnvelopeParts(c: Credentials, brand: string, p: ParsedModel): seq<string> {
    [ EnvelopeStart + RootAttributes, Break6,
      Header, Break6,
      BodyElement(c, brand, p), Break2,
      EnvelopeEnd ]
  }

  /**
   * The envelope opens with the root element's whole start tag, declaring the
   * SOAP 1.1 namespace and the two namespaces its children use, and closes it.
   */
  lemma EnvelopeFrame(c: Credentials, brand: string, p: ParsedModel)
    ensures var xml := Concat(EnvelopeParts(c, brand, p));
      StartsWith(xml, EnvelopeStart + RootAttributes) && EndsWith(xml, EnvelopeEnd)
  {
    var parts := EnvelopeParts(c, brand, p);
    ConcatStartsWithFirst(parts);
    ConcatEndsWithLast(parts);
  }

  /**
   * The envelope nests as the template does: an empty header, then a body
   * holding the operation element, which holds the credentials element and
   * the looked-up item element.
   */
  lemma {:induction false} EnvelopeStructure(c: Credentials, brand: string, p: ParsedModel)
    ensures var xml := Concat(EnvelopeParts(c, brand, p));
      && Includes(xml, Header)
      && Includes(xml, BodyElement(c, brand, p))
      && Includes(xml, OperationElement(c, brand, p))
      && Includes(xml, CredentialsBlock(c))
      && Includes(xml, LookUpItemBlock(brand, p, c.stockName))
  {
    var xml := Concat(EnvelopeParts(c, brand, p));
    ConcatIncludesPart(EnvelopeParts(c, brand, p), 2);
    ConcatIncludesPart(EnvelopeParts(c, brand, p), 4);
    ConcatIncludesPart(BodyParts(c, brand, p), 2);
    IncludesTransitive(xml, BodyElement(c, brand, p), OperationElement(c, brand, p));
    ConcatIncludesPart(OperationParts(c, brand, p), 2);
    ConcatIncludesPart(OperationParts(c, brand, p), 4);
    IncludesTransitive(xml, OperationElement(c, brand, p), CredentialsBlock(c));
    IncludesTransitive(xml, OperationElement(c, brand, p), LookUpItemBlock(brand, p, c.stockName));
  }

  /** Each credential sits verbatim inside its element of the credentials block. */
  lemma CredentialsBlockElements(c: Credentials)
    ensures var block := CredentialsBlock(c);
      && Includes(block, Element("Password", c.password))
      && Includes(block, Element("SesamDb", c.sesamDb))
      && Includes(block, Element("UserName", c.userName))
  {
    ConcatIncludesPart(CredentialsParts(c), 2);
    ConcatIncludesPart(CredentialsParts(c), 4);
    ConcatIncludesPart(CredentialsParts(c), 6);
  }

  /** Each item value sits verbatim inside its element of the look-up item block. */
  lemma LookUpItemBlockElements(brand: string, p: ParsedModel, stockName: string)
    ensures var block := LookUpItemBlock(brand, p, stockName);
      && Includes(block, Element("Brand", brand))
      && Includes(block, Element("Color", ""))
      && Includes(block, Element("Model", p.model))
      && Includes(block, Element("StockName", stockName))
      && Includes(block, Element("Storage", p.storage))
  {
    ConcatIncludesPart(LookUpItemParts(brand, p, stockName), 2);
    ConcatIncludesPart(LookUpItemParts(brand, p, stockName), 4);
    ConcatIncludesPart(LookUpItemParts(brand, p, stockName), 6);
    ConcatIncludesPart(LookUpItemParts(brand, p, stockName), 8);
    ConcatIncludesPart(LookUpItemParts(brand, p, stockName), 10);
  }

  /** The three credentials, each verbatim inside its element. */
  lemma EnvelopeCredentials(c: Credentials, brand: string, p: ParsedModel)
    ensures var xml := Concat(EnvelopeParts(c, brand, p));
      && Includes(xml, Element("Password", c.password))
      && Includes(xml, Element("SesamDb", c.sesamDb))
      && Includes(xml, Element("UserName", c.userName))
  {
    var xml := Concat(EnvelopeParts(c, brand, p));
    var block := CredentialsBlock(c);
    EnvelopeStructure(c, brand, p);
    CredentialsBlockElements(c);
    IncludesTransitive(xml, block, Element("Password", c.password));
    IncludesTransitive(xml, block, Element("SesamDb", c.sesamDb));
    IncludesTransitive(xml, block, Element("UserName", c.userName));
  }

  /** The looked-up item, each value verbatim inside its element, colour left empty. */
  lemma EnvelopeItem(c: Credentials, brand: string, p: ParsedModel)
    ensures var xml := Concat(EnvelopeParts(c, brand, p));
      && Includes(xml, Element("Brand", brand))
      && Includes(xml, Element("Color", ""))
      && Includes(xml, Element("Model", p.model))
      && Includes(xml, Element("StockName", c.stockName))
      && Includes(xml, Element("Storage", p.storage))
  {
    var xml := Concat(EnvelopeParts(c, brand, p));
    var block := LookUpItemBlock(brand, p, c.stockName);
    EnvelopeStructure(c, brand, p);
    LookUpItemBlockElements(brand, p, c.stockName);
    IncludesTransitive(xml, block, Element("Brand", brand));
    IncludesTransitive(xml, block, Element("Color", ""));
    IncludesTransitive(xml, block, Element("Model", p.model));
    IncludesTransitive(xml, block, Element("StockName", c.stockName));
    IncludesTransitive(xml, block, Element("Storage", p.storage));
  }

  /** The envelope for an already split model. */
  function SoapRequest(c: Credentials, brand: string, p: ParsedModel): (xml: string)
    ensures StartsWith(xml, EnvelopeStart + RootAttributes) && EndsWith(xml, EnvelopeEnd)
    ensures Includes(xml, Header)
    ensures Includes(xml, BodyElement(c, brand, p))
    ensures Includes(xml, OperationElement(c, brand, p))
    ensures Includes(xml, CredentialsBlock(c))
    ensures Includes(xml, LookUpItemBlock(brand, p, c.stockName))
    ensures Includes(xml, Element("Password", c.password))
    ensures Includes(xml, Element("SesamDb", c.sesamDb))
    ensures Includes(xml, Element("UserName", c.userName))
    ensures Includes(xml, Element("Brand", brand))
    ensures Includes(xml, Element("Color", ""))
    ensures Includes(xml, Element("StockName", c.stockName))
    ensures Includes(xml, Element("Model", p.model))
    ensures Includes(xml, Element("Storage", p.storage))
  {
    EnvelopeFrame(c, brand, p);
    EnvelopeStructure(c, brand, p);
    EnvelopeCredentials(c, brand, p);
    EnvelopeItem(c, brand, p);
    Concat(EnvelopeParts(c, brand, p))
  }

  /**
   * The request body for one SwapStockLookUpVer2 lookup: a SOAP 1.1 envelope
   * with an empty header and a body carrying the credentials and the item,
   * every value embedded literally.
   */
  function CreateSoapRequestSchema(fullModel: string, brand: string, c: Credentials): (xml: string)
    ensures StartsWith(xml, EnvelopeStart + RootAttributes) && EndsWith(xml, EnvelopeEnd)
    ensures Includes(xml, Header)
    ensures Includes(xml, BodyElement(c, brand, ParseItemModel(fullModel)))
    ensures Includes(xml, OperationElement(c, brand, ParseItemModel(fullModel)))
    ensures Includes(xml, CredentialsBlock(c))
    ensures Includes(xml, LookUpItemBlock(brand, ParseItemModel(fullModel), c.stockName))
    ensures Includes(xml, Element("Password", c.password))
    ensures Includes(xml, Element("SesamDb", c.sesamDb))
    ensures Includes(xml, Element("UserName", c.userName))
    ensures Includes(xml, Element("Brand", brand))
    ensures Includes(xml, Element("Color", ""))
    ensures Includes(xml, Element("StockName", c.stockName))
    ensures Includes(xml, Element("Model", ParseItemModel(fullModel).model))
    ensures Includes(xml, Element("Storage", ParseItemModel(fullModel).storage))
  {
    SoapRequest(c, brand, ParseItemModel(fullModel))
  }

  // ---------------------------------------------------------------------------
  // parseSoapResponse
  // ---------------------------------------------------------------------------

  /** What the stock check reports; `colors` holds each item's `Color` value as found. */
  datatype StockResult = StockResult(isAvailable: bool, colors: seq<JsVal>)

  const Unavailable := StockResult(false, [])

  /** A result is consistent when it is available exactly when it lists a colour. */
  predicate Consistent(r: StockResult) {
    r.isAvailable == (|r.colors| > 0)
  }

  const ResultPath := ["Envelope", "Body", "SwapStockLookUpVer2Response", "SwapStockLookUpVer2Result"]
  const ItemsPath := ["AvailableItems", "WS_API_.SwapStockAvailableItemV2"]

  /** `items.map(item => item.Color)`: `None` when some item is nullish, which throws. */
  function ItemColors(items: seq<JsVal>): (r: Option<seq<JsVal>>)
    ensures r.None? <==> exists i :: 0 <= i < |items| && Nullish(items[i])
    ensures r.Some? ==> |r.value| == |items|
    ensures r.Some? ==> forall i :: 0 <= i < |items| ==> Member(items[i], "Color") == Some(r.value[i])
  {
    if items == [] then Some([])
    else
      match Member(items[0], "Color")
      case None => None
      case Some(c) =>
        match ItemColors(items[1..])
        case None =>
          var i :| 0 <= i < |items[1..]| && Nullish(items[1..][i]);
          assert Nullish(items[i + 1]);
          None
        case Some(cs) =>
          assert forall i :: 1 <= i < |items| ==> items[i] == items[1..][i - 1];
          Some([c] + cs)
  }

  /** `Array.isArray(items) ? items : [items]` */
  function AsList(items: JsVal): (list: seq<JsVal>)
    ensures items.Arr? ==> list == items.elems
    ensures !items.Arr? ==> list == [items]
    ensures list == [] ==> items == Arr([])
  {
    if items.Arr? then items.elems else [items]
  }

  /**
   * Normalises the parsed response; every failure, the thrown ones included,
   * becomes the unavailable result, so the function never fails.
   */
  function ParseSoapResponse(root: JsVal): (r: StockResult)
    ensures Consistent(r)
  {
    match Path(root, ResultPath)
    case None => Unavailable
    case Some(result) =>
      if Falsy(result) then Unavailable
      else if Member(result, "status") != Some(Bool(true)) then Unavailable
      else
        match Path(result, ItemsPath)
        case None => Unavailable
        case Some(items) =>
          if Falsy(items) then Unavailable
          else
            match ItemColors(AsList(items))
            case None => Unavailable
            case Some(colors) => StockResult(|colors| > 0, colors)
  }

  /** A missing or falsy result node gives the unavailable result. */
  lemma NoResultIsUnavailable(root: JsVal)
    requires Path(root, ResultPath).None? || Falsy(Path(root, ResultPath).value)
    ensures ParseSoapResponse(root) == Unavailable
  {
  }

  /** A result whose `status` is anything but the boolean `true` gives the unavailable result. */
  lemma StatusNotTrueIsUnavailable(root: JsVal, result: JsVal)
    requires Path(root, ResultPath) == Some(result)
    requires Member(result, "status") != Some(Bool(true))
    ensures ParseSoapResponse(root) == Unavailable
  {
  }

  /** A missing item container (or missing item list) gives the unavailable result. */
  lemma NoItemsIsUnavailable(root: JsVal, result: JsVal)
    requires Path(root, ResultPath) == Some(result)
    requires Path(result, ItemsPath).None? || Falsy(Path(result, ItemsPath).value)
    ensures ParseSoapResponse(root) == Unavailable
  {
  }

  /** The response reaches its item list: result present and truthy, status true, items truthy. */
  ghost predicate ListsItems(root: JsVal, items: JsVal) {
    exists result ::
      Path(root, ResultPath) == Some(result) && !Falsy(result)
      && Member(result, "status") == Some(Bool(true))
      && Path(result, ItemsPath) == Some(items) && !Falsy(items)
  }

  /**
   * Over a list of items, one colour per item in input order, duplicates kept,
   * as long as no item is nullish; one nullish item makes the whole result
   * unavailable.
   */
  lemma {:induction false} ColorsFollowItems(root: JsVal, items: JsVal)
    requires ListsItems(root, items)
    ensures var r := ParseSoapResponse(root);
      (forall i :: 0 <= i < |AsList(items)| ==> !Nullish(AsList(items)[i])) ==>
        |r.colors| == |AsList(items)|
        && forall i :: 0 <= i < |AsList(items)| ==> Member(AsList(items)[i], "Color") == Some(r.colors[i])
    ensures (exists i :: 0 <= i < |AsList(items)| && Nullish(AsList(items)[i])) ==>
      ParseSoapResponse(root) == Unavailable
  {
    var result :| Path(root, ResultPath) == Some(result) && !Falsy(result)
      && Member(result, "status") == Some(Bool(true))
      && Path(result, ItemsPath) == Some(items) && !Falsy(items);
    var _ := ItemColors(AsList(items));
  }

  /** A single item that is not in a list is treated as a one-element list. */
  lemma {:induction false} SingleItemIsOneColor(root: JsVal, item: JsVal)
    requires ListsItems(root, item) && !item.Arr?
    ensures ParseSoapResponse(root).isAvailable
    ensures ParseSoapResponse(root).colors == [Member(item, "Color").value]
  {
    ColorsFollowItems(root, item);
    assert AsList(item) == [item];
  }

  /** Available exactly when the response lists at least one item and none of them is nullish. */
  lemma {:induction false} AvailableIff(root: JsVal)
    ensures ParseSoapResponse(root).isAvailable <==>
      exists items :: ListsItems(root, items) && |AsList(items)| > 0
        && forall i :: 0 <= i < |AsList(items)| ==> !Nullish(AsList(items)[i])
  {
    var r := ParseSoapResponse(root);
    if r.isAvailable {
      var result := Path(root, ResultPath).value;
      var items := Path(result, ItemsPath).value;
      assert ListsItems(root, items);
      ColorsFollowItems(root, items);
    }
    if exists items :: ListsItems(root, items) && |AsList(items)| > 0
        && forall i :: 0 <= i < |AsList(items)| ==> !Nullish(AsList(items)[i]) {
      var items :| ListsItems(root, items) && |AsList(items)| > 0
        && forall i :: 0 <= i < |AsList(items)| ==> !Nullish(AsList(items)[i]);
      ColorsFollowItems(root, items);
    }
  }

  /** Builds the parsed shape of a response from its result node. */
  function ResponseWith(result: JsVal): JsVal {
    Obj(map["Envelope" := Obj(map["Body" := Obj(map["SwapStockLookUpVer2Response" :=
      Obj(map["SwapStockLookUpVer2Result" := result])])])])
  }

  /**
   * Status `true` with an empty item list still reports unavailable:
   * availability follows the colours, not the upstream status flag.
   */
  lemma StatusTrueWithoutItemsIsUnavailable()
    ensures ParseSoapResponse(ResponseWith(Obj(map[
      "status" := Bool(true),
      "AvailableItems" := Obj(map["WS_API_.SwapStockAvailableItemV2" := Arr([])])]))) == Unavailable
  {
  }
}
