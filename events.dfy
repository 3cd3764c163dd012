/**
 * The event vocabulary shared by src/watch.js, src/oneshot.js, src/email.js
 * and the production-flow replica, and the notification text that watch.js
 * and oneshot.js both build (header line, title, url, previous stock, and the
 * price delta when the price moved).
 */
module Events {
  import opened Wrappers
  import JsText
  import opened JsNumbers

  datatype EventType =
    | HighPriceInStock
    | NewHighPricePage
    | PriceChanged
    | BackInStock
    | StockIncreased
    | SoldOut
    | StockDecreased

  predicate IsAsciiLetter(c: char) {
    'a' <= c <= 'z' || 'A' <= c <= 'Z'
  }

  /** The event's name as the source spells it. */
  function Name(e: EventType): (s: string)
    ensures s != [] && forall i :: 0 <= i < |s| ==> IsAsciiLetter(s[i])
  {
    match e
    case HighPriceInStock => "HighPriceInStock"
    case NewHighPricePage => "NewHighPricePage"
    case PriceChanged => "PriceChanged"
    case BackInStock => "BackInStock"
    case StockIncreased => "StockIncreased"
    case SoldOut => "SoldOut"
    case StockDecreased => "StockDecreased"
  }

  /** Distinct events have distinct names. */
  lemma NameInjective(a: EventType, b: EventType)
    requires Name(a) == Name(b)
    ensures a == b
  {
  }

  /** A text JavaScript treats as true: present and not empty. */
  predicate Truthy(o: Option<string>) {
    o.Some? && o.value != ""
  }

  /** `a || b` on values that may be absent texts. */
  function OrElse(a: Option<string>, b: Option<string>): Option<string> {
    if Truthy(a) then a else b
  }

  /** JavaScript's `${value}` of a value that may be `undefined`. */
  function Interpolate(o: Option<string>): string {
    match o
    case Some(s) => s
    case None => "undefined"
  }

  /** A value in an array passed to `join`: `undefined` joins as the empty text. */
  function Joined(o: Option<string>): string {
    o.GetOr("")
  }

  /** `【${eventType}】¥${priceYen.toLocaleString()} 在庫${totalStock}` */
  function HeaderLine(eventName: string, priceYen: int, totalStock: int): string {
    "【" + eventName + "】¥" + JsText.Grouped(priceYen) + " 在庫" + JsText.IntToDecimal(totalStock)
  }

  /** `前回在庫: ${prevStock}`, or `前回在庫: N/A` without a previous stock. */
  function PrevStockLine(prevStock: Option<Num>): string {
    match prevStock
    case Some(s) => "前回在庫: " + Text(s)
    case None => "前回在庫: N/A"
  }

  /** `前回価格: ¥${prevPrice} → +¥${delta}` (or `¥${delta}` when the delta is not positive). */
  function PriceDeltaLine(prevPrice: Num, priceYen: int): string {
    var delta := Minus(priceYen, prevPrice);
    var deltaText := if Above(delta, 0) then "+¥" + Localized(delta) else "¥" + Localized(delta);
    "前回価格: ¥" + Localized(prevPrice) + " → " + deltaText
  }

  /** The stored price counts as changed when it is present and not `===` the current one (NaN always is). */
  predicate PriceMoved(prevPrice: Option<Num>, priceYen: int) {
    prevPrice.Some? && prevPrice.value != Int(priceYen)
  }

  /**
   * The notification text of src/watch.js:88-101 and src/oneshot.js:112-130:
   * header, title, url, previous stock and, when the stored price differs,
   * the price delta, one per line.
   */
  function PlainMessage(e: EventType, title: Option<string>, url: string, totalStock: int, priceYen: int,
                        prevStock: Option<Num>, prevPrice: Option<Num>): string
  {
    var parts := [HeaderLine(Name(e), priceYen, totalStock), Joined(title), url, PrevStockLine(prevStock)];
    var parts' := if PriceMoved(prevPrice, priceYen)
                  then parts + [PriceDeltaLine(prevPrice.value, priceYen)] else parts;
    JsText.Join(parts', "\n")
  }

  /** The message always starts with its header line, followed by a line break. */
  lemma PlainMessageStartsWithHeader(e: EventType, title: Option<string>, url: string, totalStock: int,
                                     priceYen: int, prevStock: Option<Num>, prevPrice: Option<Num>)
    ensures var h := HeaderLine(Name(e), priceYen, totalStock);
      var m := PlainMessage(e, title, url, totalStock, priceYen, prevStock, prevPrice);
      |m| > |h| && m[..|h| + 1] == h + "\n"
  {
    var h := HeaderLine(Name(e), priceYen, totalStock);
    var parts := [h, Joined(title), url, PrevStockLine(prevStock)];
    var parts' := if PriceMoved(prevPrice, priceYen)
                  then parts + [PriceDeltaLine(prevPrice.value, priceYen)] else parts;
    assert parts'[0] == h && |parts'| >= 2;
    var m := JsText.Join(parts', "\n");
    assert m == h + "\n" + JsText.Join(parts'[1..], "\n");
  }
}
