/**
 * The request-body middleware of the order API: a content-type gate and the
 * structural check of an order body. The HTTP response the middleware would
 * send and its call of `next` are modelled as the value it returns.
 */
module Validation {
  import opened Wrappers

  /** A parsed JSON value. Numbers are reals; an absent property is a key
      missing from the object's map. */
  datatype Json =
    | JNull
    | JBool(b: bool)
    | JNum(x: real)
    | JStr(s: string)
    | JArr(items: seq<Json>)
    | JObj(fields: map<string, Json>)

  /** The `error` codes of the 400 responses. */
  datatype ErrorCode =
    | InvalidContentType
    | MissingProducts
    | InvalidProductsType
    | EmptyProductsArray
    | ProductValidationError
    | InvalidStratum

  /** Which field of a product failed. */
  datatype Issue = BadId | BadName | BadPrice | BadQuantity

  /** One entry of `details`: the 1-based product number and its issue. */
  datatype Detail = Detail(product: nat, issue: Issue)

  /** What the middleware does: call `next`, answer 400 with a code and
      details, or throw (reading a property of `null`). */
  datatype Response = Next | Reject(code: ErrorCode, details: seq<Detail>) | Throws

  /** JavaScript truthiness; an absent value is `undefined`, which is falsy. */
  predicate Truthy(v: Json) {
    match v
    case JNull => false
    case JBool(b) => b
    case JNum(x) => x != 0.0
    case JStr(s) => s != ""
    case JArr(_) => true
    case JObj(_) => true
  }

  /** Property access on a non-null value: only objects have properties. */
  function Get(v: Json, key: string): (r: Option<Json>)
    ensures r.Some? <==> v.JObj? && key in v.fields
    ensures r.Some? ==> r.value == v.fields[key]
  {
    if v.JObj? && key in v.fields then Some(v.fields[key]) else None
  }

  /** A present property that is a non-empty string. */
  predicate IsNonEmptyString(v: Option<Json>) {
    v.Some? && v.value.JStr? && v.value.s != ""
  }

  predicate IsNumberAtLeast(v: Option<Json>, low: real) {
    v.Some? && v.value.JNum? && v.value.x >= low
  }

  predicate IsPositiveNumber(v: Option<Json>) {
    v.Some? && v.value.JNum? && v.value.x > 0.0
  }

  // ---------------------------------------------------------------------
  // validateJsonBody
  // ---------------------------------------------------------------------

  /** A POST whose content type is not JSON is refused; every other request
      goes on. */
  function ValidateJsonBody(httpMethod: string, isJson: bool): (r: Response)
    ensures r == Reject(InvalidContentType, []) <==> httpMethod == "POST" && !isJson
    ensures r != Reject(InvalidContentType, []) ==> r == Next
  {
    if httpMethod == "POST" && !isJson then Reject(InvalidContentType, []) else Next
  }

  // ---------------------------------------------------------------------
  // validateOrderStructure, as a function
  // ---------------------------------------------------------------------

  /** The issues of one non-null product, in the order they are checked,
      numbered with the product's 1-based position. */
  function ProductIssues(product: Json, number: nat): (r: seq<Detail>)
    ensures |r| <= 4
    ensures forall k :: 0 <= k < |r| ==> r[k].product == number
    ensures r == [] <==> IsNonEmptyString(Get(product, "id")) && IsNonEmptyString(Get(product, "name"))
                         && IsNumberAtLeast(Get(product, "price"), 0.0) && IsPositiveNumber(Get(product, "quantity"))
  {
    (if IsNonEmptyString(Get(product, "id")) then [] else [Detail(number, BadId)])
    + (if IsNonEmptyString(Get(product, "name")) then [] else [Detail(number, BadName)])
    + (if IsNumberAtLeast(Get(product, "price"), 0.0) then [] else [Detail(number, BadPrice)])
    + (if IsPositiveNumber(Get(product, "quantity")) then [] else [Detail(number, BadQuantity)])
  }

  /** Each field that fails its check contributes its own issue, and only those do. */
  lemma ProductIssuesAreFailingFields(product: Json, number: nat)
    ensures var r := ProductIssues(product, number);
      && (Detail(number, BadId) in r <==> !IsNonEmptyString(Get(product, "id")))
      && (Detail(number, BadName) in r <==> !IsNonEmptyString(Get(product, "name")))
      && (Detail(number, BadPrice) in r <==> !IsNumberAtLeast(Get(product, "price"), 0.0))
      && (Detail(number, BadQuantity) in r <==> !IsPositiveNumber(Get(product, "quantity")))
  {
  }

  /** A product that passes: not null and without issues. */
  predicate ProductPasses(products: seq<Json>, i: nat)
    requires i < |products|
  {
    !products[i].JNull? && ProductIssues(products[i], i + 1) == []
  }

  /** The outcome of checking the products from index `start` on. */
  datatype Scan = Clean | Invalid(details: seq<Detail>) | Crash

  function ScanProducts(products: seq<Json>, start: nat): Scan
    decreases |products| - start
  {
    if start >= |products| then Clean
    else if products[start].JNull? then Crash
    else if ProductIssues(products[start], start + 1) != [] then Invalid(ProductIssues(products[start], start + 1))
    else ScanProducts(products, start + 1)
  }

  /** The stratum passes when absent or a number from 1 to 6. */
  predicate StratumPasses(stratum: Option<Json>) {
    stratum.None? || (stratum.value.JNum? && 1.0 <= stratum.value.x <= 6.0)
  }

  /** The decision of `validateOrderStructure` for a parsed body. */
  function OrderStructureVerdict(body: Json): Response {
    if body.JNull? then Throws
    else
      var products := Get(body, "products");
      if products.None? || !Truthy(products.value) then Reject(MissingProducts, [])
      else if !products.value.JArr? then Reject(InvalidProductsType, [])
      else if products.value.items == [] then Reject(EmptyProductsArray, [])
      else match ScanProducts(products.value.items, 0)
        case Crash => Throws
        case Invalid(details) => Reject(ProductValidationError, details)
        case Clean =>
          if StratumPasses(Get(body, "socioeconomicStratum")) then Next else Reject(InvalidStratum, [])
  }

  // ---------------------------------------------------------------------
  // validateOrderStructure, as the middleware runs it
  // ---------------------------------------------------------------------

  /** The check in the middleware's own steps: three guards, the product
      loop that collects each product's errors and stops at the first
      product with any, then the stratum. */
  method ValidateOrderStructure(body: Json) returns (response: Response)
    ensures response == OrderStructureVerdict(body)
  {
    if body.JNull? {
      return Throws;
    }
    var products := Get(body, "products");
    if products.None? || !Truthy(products.value) {
      return Reject(MissingProducts, []);
    }
    if !products.value.JArr? {
      return Reject(InvalidProductsType, []);
    }
    var items := products.value.items;
    if |items| == 0 {
      return Reject(EmptyProductsArray, []);
    }
    for i := 0 to |items|
      invariant ScanProducts(items, 0) == ScanProducts(items, i)
    {
      var product := items[i];
      if product.JNull? {
        return Throws;
      }
      var errors: seq<Detail> := [];
      if !IsNonEmptyString(Get(product, "id")) {
        errors := errors + [Detail(i + 1, BadId)];
      }
      if !IsNonEmptyString(Get(product, "name")) {
        errors := errors + [Detail(i + 1, BadName)];
      }
      if !IsNumberAtLeast(Get(product, "price"), 0.0) {
        errors := errors + [Detail(i + 1, BadPrice)];
      }
      if !IsPositiveNumber(Get(product, "quantity")) {
        errors := errors + [Detail(i + 1, BadQuantity)];
      }
      assert errors == ProductIssues(product, i + 1);
      if |errors| > 0 {
        return Reject(ProductValidationError, errors);
      }
    }
    var stratum := Get(body, "socioeconomicStratum");
    if stratum.Some? {
      if !stratum.value.JNum? || stratum.value.x < 1.0 || stratum.value.x > 6.0 {
        return Reject(InvalidStratum, []);
      }
    }
    response := Next;
  }

  // ---------------------------------------------------------------------
  // Properties of the decision
  // ---------------------------------------------------------------------

  /** The scan is clean iff every product passes; it reports the first
      product that does not, with that product's issues only. */
  lemma {:induction false} ScanFindsFirstFailure(products: seq<Json>, start: nat)
    requires start <= |products|
    ensures ScanProducts(products, start) == Clean <==> forall i :: start <= i < |products| ==> ProductPasses(products, i)
    ensures ScanProducts(products, start).Invalid? ==> ScanProducts(products, start).details != []
    ensures ScanProducts(products, start).Invalid? ==>
              exists i :: start <= i < |products| && !products[i].JNull?
                          && ScanProducts(products, start).details == ProductIssues(products[i], i + 1)
                          && (forall j :: start <= j < i ==> ProductPasses(products, j))
    ensures ScanProducts(products, start) == Crash ==>
              exists i :: start <= i < |products| && products[i].JNull?
                          && (forall j :: start <= j < i ==> ProductPasses(products, j))
    decreases |products| - start
  {
    if start < |products| {
      ScanFindsFirstFailure(products, start + 1);
      var scan := ScanProducts(products, start);
      if ProductPasses(products, start) && scan.Invalid? {
        var i :| start + 1 <= i < |products| && !products[i].JNull?
                 && scan.details == ProductIssues(products[i], i + 1)
                 && (forall j :: start + 1 <= j < i ==> ProductPasses(products, j));
        assert forall j :: start <= j < i ==> ProductPasses(products, j);
      } else if ProductPasses(products, start) && scan == Crash {
        var i :| start + 1 <= i < |products| && products[i].JNull?
                 && (forall j :: start + 1 <= j < i ==> ProductPasses(products, j));
        assert forall j :: start <= j < i ==> ProductPasses(products, j);
      }
    }
  }

  /** The three checks on `products` run in order: each code is produced
      exactly when the checks before it pass and its own fails. */
  lemma GuardOrder(body: Json)
    requires !body.JNull?
    ensures OrderStructureVerdict(body) == Reject(MissingProducts, []) <==>
              Get(body, "products").None? || !Truthy(Get(body, "products").value)
    ensures OrderStructureVerdict(body) == Reject(InvalidProductsType, []) <==>
              Get(body, "products").Some? && Truthy(Get(body, "products").value) && !Get(body, "products").value.JArr?
    ensures OrderStructureVerdict(body) == Reject(EmptyProductsArray, []) <==>
              Get(body, "products") == Some(JArr([]))
  {
  }

  /** A product error names the first failing product and only its 1 to 4
      issues, numbered with its 1-based position; every product before it
      passes. */
  lemma ProductErrorIsFirstFailure(body: Json)
    requires OrderStructureVerdict(body).Reject? && OrderStructureVerdict(body).code == ProductValidationError
    ensures Get(body, "products").Some? && Get(body, "products").value.JArr?
    ensures var items := Get(body, "products").value.items;
            var details := OrderStructureVerdict(body).details;
            1 <= |details| <= 4
            && exists i :: 0 <= i < |items| && !items[i].JNull? && details == ProductIssues(items[i], i + 1)
                           && (forall k :: 0 <= k < |details| ==> details[k].product == i + 1)
                           && (forall j :: 0 <= j < i ==> ProductPasses(items, j))
  {
    var items := Get(body, "products").value.items;
    ScanFindsFirstFailure(items, 0);
  }

  /** The stratum is looked at only once every product has passed, and is
      refused exactly when present and not a number from 1 to 6; so 0 is
      refused here. */
  lemma StratumCheckedLast(body: Json)
    requires !body.JNull?
    ensures OrderStructureVerdict(body) == Reject(InvalidStratum, []) <==>
              && Get(body, "products").Some? && Get(body, "products").value.JArr?
              && Get(body, "products").value.items != []
              && (forall i :: 0 <= i < |Get(body, "products").value.items| ==> ProductPasses(Get(body, "products").value.items, i))
              && !StratumPasses(Get(body, "socioeconomicStratum"))
    ensures !StratumPasses(Some(JNum(0.0)))
  {
    var products := Get(body, "products");
    if products.Some? && products.value.JArr? {
      ScanFindsFirstFailure(products.value.items, 0);
    }
  }

  /** A body goes on to the handler exactly when every check passes. */
  lemma NextIffAllPass(body: Json)
    ensures OrderStructureVerdict(body) == Next <==>
              && !body.JNull?
              && Get(body, "products").Some? && Get(body, "products").value.JArr?
              && Get(body, "products").value.items != []
              && (forall i :: 0 <= i < |Get(body, "products").value.items| ==> ProductPasses(Get(body, "products").value.items, i))
              && StratumPasses(Get(body, "socioeconomicStratum"))
  {
    var products := Get(body, "products");
    if !body.JNull? && products.Some? && products.value.JArr? {
      ScanFindsFirstFailure(products.value.items, 0);
    }
  }

  /** A product with every field wrong yields all four issues, in order. */
  lemma AllFourIssues()
    ensures ProductIssues(JObj(map[]), 3) == [Detail(3, BadId), Detail(3, BadName), Detail(3, BadPrice), Detail(3, BadQuantity)]
  {
  }
}
