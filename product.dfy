/**
 * src/product.js: the snapshot a product page is reduced to. A product's
 * JSON lists variants; the snapshot's stock is a sum over them, its price the
 * largest variant price in yen, and its `#dddd` tag is taken from the title.
 */
module Product {
  import opened Wrappers
  import JsText
  import Url

  /**
   * One element of `variants[]`: `available === true`, and the results of
   * `Number(inventory_quantity)` and `Number(price)` (None where not finite).
   */
  datatype Variant = Variant(available: bool, inventory: Option<int>, priceCents: Option<int>)

  /** The fields of `/products/<handle>.js` the snapshot uses; `variants` is None when not an array. */
  datatype ProductJson = ProductJson(id: Option<string>, handle: Option<string>, title: Option<string>,
                                     variants: Option<seq<Variant>>)

  /** What `fetchProductJsonByUrl` returns. `productId` is the id as text. */
  datatype Snapshot = Snapshot(productId: Option<string>, handle: Option<string>, title: Option<string>,
                               url: string, totalStock: int, priceYen: int, hashNumber: Option<string>)

  // ---------------------------------------------------------------- price

  /** `parseYenFromShopifyPrice`: `Math.round(n / 100)` of a finite price in cents, else null. */
  function ParseYen(cents: Option<int>): (r: Option<int>)
    ensures r.Some? <==> cents.Some?
    ensures r.Some? ==> 100 * r.value - 50 <= cents.value < 100 * r.value + 50
  {
    match cents
    case None => None
    case Some(n) => Some((n + 50) / 100)
  }

  /** `parseYenFromShopifyPrice(v.price) ?? 0`. */
  function VariantYen(v: Variant): int {
    ParseYen(v.priceCents).GetOr(0)
  }

  /** The `Math.max` reduction over the variants, starting from 0. */
  function MaxPriceYen(vs: seq<Variant>): (r: int)
    ensures r >= 0
    ensures forall i :: 0 <= i < |vs| ==> VariantYen(vs[i]) <= r
    ensures r == 0 || exists i :: 0 <= i < |vs| && VariantYen(vs[i]) == r
  {
    if vs == [] then 0
    else
      var acc := MaxPriceYen(vs[..|vs| - 1]);
      var py := VariantYen(vs[|vs| - 1]);
      assert forall i :: 0 <= i < |vs| - 1 ==> vs[..|vs| - 1][i] == vs[i];
      if acc >= py then acc else py
  }

  // ---------------------------------------------------------------- stock

  /** What one variant adds to totalStock: positive inventory, else 1 if available, else 0. */
  function Contribution(v: Variant): nat {
    if v.inventory.Some? && v.inventory.value > 0 then v.inventory.value
    else if v.available then 1
    else 0
  }

  /** How many variants are available. */
  function AvailableCount(vs: seq<Variant>): nat {
    if vs == [] then 0 else AvailableCount(vs[..|vs| - 1]) + (if vs[|vs| - 1].available then 1 else 0)
  }

  /** The totalStock reduction, left to right from 0. */
  function TotalStock(vs: seq<Variant>): (r: int)
    ensures r >= 0
    ensures r >= AvailableCount(vs)
  {
    if vs == [] then 0 else TotalStock(vs[..|vs| - 1]) + Contribution(vs[|vs| - 1])
  }

  /** A positive total means some variant contributed stock. */
  lemma {:induction false} PositiveStockHasSource(vs: seq<Variant>)
    requires TotalStock(vs) > 0
    ensures exists i :: 0 <= i < |vs| && Contribution(vs[i]) > 0
  {
    var last := vs[|vs| - 1];
    if Contribution(last) == 0 {
      PositiveStockHasSource(vs[..|vs| - 1]);
      var i :| 0 <= i < |vs| - 1 && Contribution(vs[..|vs| - 1][i]) > 0;
      assert vs[..|vs| - 1][i] == vs[i];
    }
  }

  // ---------------------------------------------------------------- #dddd tag

  /** `#` followed by four digits starts at `i`. */
  predicate HashAt(t: string, i: nat) {
    i + 5 <= |t| && t[i] == '#' && JsText.AllDigits(t[i + 1..i + 5])
  }

  /** The first position at or after `from` where a tag starts. */
  function FirstHashAt(t: string, from: nat): (r: Option<nat>)
    ensures r.Some? ==> from <= r.value && HashAt(t, r.value)
    ensures r.Some? ==> forall j: nat :: from <= j < r.value ==> !HashAt(t, j)
    ensures r.None? ==> forall j: nat :: from <= j ==> !HashAt(t, j)
    decreases |t| - from
  {
    if from + 5 > |t| then None
    else if HashAt(t, from) then Some(from)
    else FirstHashAt(t, from + 1)
  }

  /** `extractHashNumber`: the digits of the first `/#(\d{4})/` match, null for a falsy title. */
  function ExtractHashNumber(title: Option<string>): (r: Option<string>)
    ensures title.None? || title.value == [] ==> r.None?
    ensures r.None? && title.Some? ==> forall j: nat :: !HashAt(title.value, j)
    ensures r.Some? ==> |r.value| == 4 && JsText.AllDigits(r.value)
    ensures r.Some? ==> exists i: nat :: HashAt(title.value, i) && title.value[i + 1..i + 5] == r.value
                                   && forall j: nat :: j < i ==> !HashAt(title.value, j)
  {
    match title
    case None => None
    case Some(t) =>
      if t == [] then None
      else
        match FirstHashAt(t, 0)
        case None => None
        case Some(i) => Some(t[i + 1..i + 5])
  }

  // ---------------------------------------------------------------- snapshot

  /** `handleOrId`: the second segment of the URL's path, when `new URL` parses it and it has one. */
  function HandleOrId(productUrl: string): (r: Option<string>)
    ensures r.Some? ==> r.value != [] && '/' !in r.value
  {
    match Url.PathSegments(productUrl)
    case None => None
    case Some(parts) => if |parts| >= 2 then Some(parts[1]) else None
  }

  /** The JSON endpoint `fetchProductJsonByUrl` requests, or None where it returns null without fetching. */
  function ProductJsonUrl(productUrl: string): Option<string> {
    match HandleOrId(productUrl)
    case None => None
    case Some(h) => Some("https://www.hareruya2.com/products/" + h + ".js")
  }

  /**
   * `fetchProductJsonByUrl(productUrl)`, given what fetching `ProductJsonUrl(productUrl)`
   * gave: None for a response that is not ok.
   */
  function FetchProduct(productUrl: string, response: Option<ProductJson>): (r: Option<Snapshot>)
    ensures r.Some? <==> ProductJsonUrl(productUrl).Some? && response.Some?
    ensures r.Some? ==> r.value.url == productUrl && r.value.totalStock >= 0 && r.value.priceYen >= 0
    ensures r.Some? ==> r.value.title == response.value.title
                        && r.value.hashNumber == ExtractHashNumber(response.value.title)
    ensures r.Some? && response.value.variants.None? ==> r.value.totalStock == 0 && r.value.priceYen == 0
    ensures r.Some? ==> var vs := response.value.variants.GetOr([]);
                        r.value.totalStock == TotalStock(vs) && r.value.priceYen == MaxPriceYen(vs)
    ensures r.Some? ==> r.value.productId == response.value.id && r.value.handle == response.value.handle
  {
    if ProductJsonUrl(productUrl).None? then None
    else
      match response
      case None => None
      case Some(data) =>
        var vs := data.variants.GetOr([]);
        Some(Snapshot(data.id, data.handle, data.title, productUrl,
                      TotalStock(vs), MaxPriceYen(vs), ExtractHashNumber(data.title)))
  }

  /** `isTargetProduct(p)` with `config.priceThresholdYen` = `threshold`. */
  predicate IsTargetProduct(p: Option<Snapshot>, threshold: int): (r: bool)
    ensures p.None? ==> !r
    ensures p.Some? ==> (r <==> p.value.totalStock > 0 && p.value.priceYen >= threshold)
  {
    if p.None? then false
    else if p.value.totalStock <= 0 then false
    else if p.value.priceYen < threshold then false
    else true
  }

  /**
   * A fetched product is a target with a positive threshold only when some
   * variant has stock and some variant is priced at or above the threshold.
   */
  lemma FetchedTargetHasStockAndPrice(productUrl: string, response: Option<ProductJson>, threshold: int)
    requires threshold > 0 && IsTargetProduct(FetchProduct(productUrl, response), threshold)
    ensures response.Some? && response.value.variants.Some?
    ensures var vs := response.value.variants.value;
            (exists i :: 0 <= i < |vs| && Contribution(vs[i]) > 0)
            && (exists i :: 0 <= i < |vs| && VariantYen(vs[i]) >= threshold)
  {
    var vs := response.value.variants.value;
    PositiveStockHasSource(vs);
    var i :| 0 <= i < |vs| && VariantYen(vs[i]) == MaxPriceYen(vs);
  }
}
