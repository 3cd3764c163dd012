/**
 * src/config.js: the settings read from the environment, the collection
 * list (from the `COLLECTIONS` JSON or the legacy `TARGET_COLLECTION_BASE`
 * and `PAGES` variables) and the page-parameter fallback of
 * `buildCollectionUrl`. The environment is a map from names to texts.
 */
module Config {
  import opened Wrappers
  import JsText

  type Env = map<string, string>

  /** `num(name, def)`: the variable's value when it is set, non-empty and finite; the default otherwise. */
  function Num(env: Env, name: string, def: int): (r: int)
    ensures name !in env || env[name] == "" ==> r == def
    ensures name in env && env[name] != "" ==> r == JsText.JsNumber(env[name]).GetOr(def)
  {
    if name !in env || env[name] == "" then def
    else
      match JsText.JsNumber(env[name])
      case Some(n) => n
      case None => def
  }

  /** `str(name, def)`: the variable's value unless it is unset or empty. */
  function Str(env: Env, name: string, def: string): (r: string)
    ensures r == def || (name in env && r == env[name])
    ensures r == def <==> name !in env || env[name] == "" || env[name] == def
    ensures def != "" ==> r != ""
  {
    if name !in env || env[name] == "" then def else env[name]
  }

  // ---------------------------------------------------------------- page ranges

  /** The pages 1..n, in order. */
  function PageRange(n: int): (r: seq<int>)
    ensures |r| == if n < 0 then 0 else n
    ensures forall i :: 0 <= i < |r| ==> r[i] == i + 1
  {
    if n <= 0 then [] else PageRange(n - 1) + [n]
  }

  /** `generatePageRange(maxPage, hotPages)`: the loop pushing 1..maxPage. `hotPages` is not used. */
  method GeneratePageRange(maxPage: int, hotPages: int) returns (pages: seq<int>)
    ensures pages == PageRange(maxPage)
  {
    pages := [];
    var i := 1;
    while i <= maxPage
      invariant 1 <= i <= if maxPage < 0 then 1 else maxPage + 1
      invariant pages == PageRange(i - 1)
    {
      pages := pages + [i];
      i := i + 1;
    }
    assert maxPage < 1 ==> PageRange(maxPage) == [];
  }

  /** `pages.filter(p => p >= start)`. */
  function AtLeast(pages: seq<int>, start: int): (r: seq<int>)
    ensures forall i :: 0 <= i < |r| ==> r[i] >= start && r[i] in pages
  {
    if pages == [] then []
    else if pages[0] >= start then [pages[0]] + AtLeast(pages[1..], start)
    else AtLeast(pages[1..], start)
  }

  /** The consecutive pages lo..hi. */
  function Consecutive(lo: int, hi: int): (r: seq<int>)
    ensures |r| == if hi < lo then 0 else hi - lo + 1
    ensures forall i :: 0 <= i < |r| ==> r[i] == lo + i
    decreases hi - lo
  {
    if hi < lo then [] else [lo] + Consecutive(lo + 1, hi)
  }

  lemma AtLeastAppend(a: seq<int>, b: seq<int>, start: int)
    ensures AtLeast(a + b, start) == AtLeast(a, start) + AtLeast(b, start)
  {
    if a == [] {
      assert a + b == b;
    } else {
      assert (a + b)[0] == a[0] && (a + b)[1..] == a[1..] + b;
      AtLeastAppend(a[1..], b, start);
    }
  }

  /** A range "a-b" keeps exactly the consecutive pages from max(a, 1) to b. */
  lemma {:induction false} RangeIsConsecutive(start: int, end: int)
    ensures AtLeast(PageRange(end), start) == Consecutive(if start < 1 then 1 else start, end)
    decreases if end < 0 then 0 else end
  {
    var lo := if start < 1 then 1 else start;
    if end <= 0 {
    } else {
      RangeIsConsecutive(start, end - 1);
      AtLeastAppend(PageRange(end - 1), [end], start);
      if end >= lo {
        ConsecutiveSnoc(lo, end);
      }
    }
  }

  lemma ConsecutiveSnoc(lo: int, hi: int)
    requires lo <= hi
    ensures Consecutive(lo, hi) == Consecutive(lo, hi - 1) + [hi]
  {
    var a := Consecutive(lo, hi);
    var b := Consecutive(lo, hi - 1) + [hi];
    assert |a| == |b|;
    forall i | 0 <= i < |a| ensures a[i] == b[i] {
    }
  }

  // ---------------------------------------------------------------- collections

  /** The page list of a collection, or `'auto'` (find the last page at start-up). */
  datatype Pages = Auto | Listed(pages: seq<int>)

  /** The JSON value of a collection's `pages` property. */
  datatype PagesValue =
    | Missing                      // undefined or null
    | BoolValue(b: bool)
    | NumberValue(n: int)
    | StringValue(s: string)
    | ArrayValue(items: seq<int>)
    | ObjectValue

  /** JavaScript truthiness of the value. */
  predicate Truthy(v: PagesValue) {
    match v
    case Missing => false
    case BoolValue(b) => b
    case NumberValue(n) => n != 0
    case StringValue(s) => s != ""
    case ArrayValue(_) => true
    case ObjectValue => true
  }

  /** `Number(v)` for a truthy value that is not an array, None where it is not finite. */
  function NumberOf(v: PagesValue): Option<int> {
    match v
    case BoolValue(b) => Some(if b then 1 else 0)
    case NumberValue(n) => Some(n)
    case StringValue(s) => JsText.JsNumber(s)
    case _ => None
  }

  /** The page normalisation inside `parseCollections`' map callback. */
  function NormalizePages(v: PagesValue): (r: Pages)
    ensures r.Auto? <==> v == StringValue("all") || v == StringValue("*")
    ensures v.ArrayValue? ==> r == Listed(v.items)
    ensures !Truthy(v) ==> r == Listed([1, 2, 3])
    // any other truthy value is `[Number(v)]` when that is finite, else no pages
    ensures v == BoolValue(true) ==> r == Listed([1])
    ensures v.NumberValue? && v.n != 0 ==> r == Listed([v.n])
    ensures v == ObjectValue ==> r == Listed([])
    ensures v.StringValue? && v.s != "" && '-' !in v.s && v.s != "all" && v.s != "*"
            ==> r == match JsText.JsNumber(v.s) { case Some(n) => Listed([n]) case None => Listed([]) }
    // a text holding '-' is a range; `RangeSpec` says which pages it gives
    ensures v.StringValue? && '-' in v.s ==> r.Listed?
  {
    if v == StringValue("all") || v == StringValue("*") then Auto
    else if v.ArrayValue? then Listed(v.items)
    else if v.StringValue? && '-' in v.s then
      JsText.SplitFacts(v.s, '-');
      var parts := JsText.Split(v.s, '-');
      var start := JsText.JsNumber(parts[0]);
      var end := JsText.JsNumber(parts[1]);
      if start.Some? && end.Some? then Listed(AtLeast(PageRange(end.value), start.value)) else Listed([])
    else if Truthy(v) then
      match NumberOf(v)
      case Some(n) => Listed([n])
      case None => Listed([])
    else Listed([1, 2, 3])
  }

  /** "a-b" with finite ends is the consecutive run max(a, 1)..b; with a non-finite end it is empty. */
  lemma RangeSpec(s: string)
    requires '-' in s
    ensures var parts := JsText.Split(s, '-');
            var start := JsText.JsNumber(parts[0]);
            |parts| >= 2 &&
            var end := JsText.JsNumber(parts[1]);
            NormalizePages(StringValue(s))
              == if start.Some? && end.Some?
                 then Listed(Consecutive(if start.value < 1 then 1 else start.value, end.value))
                 else Listed([])
  {
    assert s != "all" && s != "*" by {
      assert '-' !in "all" && '-' !in "*";
    }
    JsText.SplitFacts(s, '-');
    var parts := JsText.Split(s, '-');
    var start := JsText.JsNumber(parts[0]);
    var end := JsText.JsNumber(parts[1]);
    if start.Some? && end.Some? {
      RangeIsConsecutive(start.value, end.value);
    }
  }

  /** One element of the `COLLECTIONS` array; None for `null`, whose `.pages` throws. */
  datatype RawCollection = RawCollection(name: Option<string>, base: Option<string>, url: Option<string>,
                                         pages: PagesValue, priority: Option<string>)

  /** The result of `JSON.parse` on the `COLLECTIONS` text. */
  datatype Parsed = Unparsable | NotAnArray | Elements(items: seq<Option<RawCollection>>)

  datatype Collection = Collection(name: string, base: Option<string>, pages: Pages, priority: string,
                                   autoDetectPages: bool)

  /** `a || b` on texts that may be missing. */
  function OrText(a: Option<string>, b: string): string {
    if a.Some? && a.value != "" then a.value else b
  }

  /** The map callback: defaults `'unknown'`, `c.base || c.url`, `'normal'`. */
  function FromRaw(c: RawCollection): (r: Collection)
    ensures r.autoDetectPages <==> r.pages.Auto?
    ensures r.name != [] && r.priority != []
    ensures r.name == (if c.name.Some? && c.name.value != "" then c.name.value else "unknown")
    ensures r.priority == (if c.priority.Some? && c.priority.value != "" then c.priority.value else "normal")
    ensures r.base == (if c.base.Some? && c.base.value != "" then c.base else c.url)
    ensures r.pages == NormalizePages(c.pages)
  {
    var pages := NormalizePages(c.pages);
    Collection(OrText(c.name, "unknown"),
               if c.base.Some? && c.base.value != "" then c.base else c.url,
               pages, OrText(c.priority, "normal"), pages == Auto)
  }

  const DefaultCollectionBase: string := "https://www.hareruya2.com/collections/pmcg?filter.v.availability=1&sort_by=price-descending"

  /** `s.split(',').map(s => Number(s.trim())).filter(Number.isFinite)`. */
  function FiniteNumbers(parts: seq<string>): (r: seq<int>)
    ensures |r| <= |parts|
  {
    Finite(EntryNumbers(parts))
  }

  /** Each comma-separated entry, trimmed, read as a number. */
  function EntryNumbers(parts: seq<string>): (r: seq<Option<int>>)
    ensures |r| == |parts|
  {
    seq(|parts|, i requires 0 <= i < |parts| => JsText.JsNumber(JsText.Trim(parts[i])))
  }

  /** The finite numbers among `xs`, in order. */
  function Finite(xs: seq<Option<int>>): (r: seq<int>)
    ensures |r| <= |xs|
  {
    if xs == [] then []
    else (match xs[0] case Some(n) => [n] case None => []) + Finite(xs[1..])
  }

  /** The comma-separated entry, trimmed, denotes the finite number `n`. */
  predicate Denotes(part: string, n: int) {
    JsText.JsNumber(JsText.Trim(part)) == Some(n)
  }

  /** A page is kept exactly when some comma-separated entry denotes it. */
  lemma FiniteNumbersMembers(parts: seq<string>, n: int)
    ensures n in FiniteNumbers(parts) <==> exists i :: 0 <= i < |parts| && Denotes(parts[i], n)
  {
    var xs := EntryNumbers(parts);
    FiniteMembers(xs, n);
    if n in FiniteNumbers(parts) {
      var i :| 0 <= i < |xs| && xs[i] == Some(n);
      assert Denotes(parts[i], n);
    }
    if exists i :: 0 <= i < |parts| && Denotes(parts[i], n) {
      var i :| 0 <= i < |parts| && Denotes(parts[i], n);
      assert xs[i] == Some(n);
    }
  }

  /** `Finite` keeps `n` exactly when `Some(n)` is among the inputs. */
  lemma {:induction false} FiniteMembers(xs: seq<Option<int>>, n: int)
    ensures n in Finite(xs) <==> exists i :: 0 <= i < |xs| && xs[i] == Some(n)
    decreases |xs|
  {
    if xs != [] {
      var tail := xs[1..];
      FiniteMembers(tail, n);
      if exists i :: 0 <= i < |xs| && xs[i] == Some(n) {
        var i :| 0 <= i < |xs| && xs[i] == Some(n);
        if i > 0 {
          assert tail[i - 1] == xs[i];
        }
      }
      if n in Finite(tail) {
        var i :| 0 <= i < |tail| && tail[i] == Some(n);
        assert xs[i + 1] == tail[i];
      }
    }
  }

  /** The legacy single collection: `PMCG`, priority `hot`, pages from `PAGES`. */
  function LegacyCollection(env: Env): (r: Collection)
    ensures r.name == "PMCG" && r.priority == "hot"
    ensures r.base == Some(Str(env, "TARGET_COLLECTION_BASE", DefaultCollectionBase))
    ensures r.autoDetectPages <==> r.pages.Auto?
    ensures r.autoDetectPages <==> Str(env, "PAGES", "1,2,3") == "all" || Str(env, "PAGES", "1,2,3") == "*"
    ensures !r.autoDetectPages ==> r.pages == Listed(FiniteNumbers(JsText.Split(Str(env, "PAGES", "1,2,3"), ',')))
  {
    var base := Str(env, "TARGET_COLLECTION_BASE", DefaultCollectionBase);
    var pagesText := Str(env, "PAGES", "1,2,3");
    var pages := if pagesText == "all" || pagesText == "*" then Auto
                 else Listed(FiniteNumbers(JsText.Split(pagesText, ',')));
    Collection("PMCG", Some(base), pages, "hot", pages == Auto)
  }

  /** Some element is `null`, so the map callback throws and the legacy collection is used. */
  predicate HasNull(items: seq<Option<RawCollection>>) {
    exists i :: 0 <= i < |items| && items[i].None?
  }

  /**
   * `parseCollections()`, with `parsed` standing for `JSON.parse` of the
   * `COLLECTIONS` text (consulted only when that text is non-empty).
   */
  function ParseCollections(env: Env, parsed: Parsed): (r: seq<Collection>)
    ensures |r| >= 1
    ensures forall i :: 0 <= i < |r| ==> (r[i].autoDetectPages <==> r[i].pages.Auto?)
    ensures Str(env, "COLLECTIONS", "") == "" ==> r == [LegacyCollection(env)]
    ensures parsed.Elements? && |parsed.items| > 0 && !HasNull(parsed.items) && Str(env, "COLLECTIONS", "") != ""
            ==> |r| == |parsed.items| && forall i :: 0 <= i < |r| ==> r[i] == FromRaw(parsed.items[i].value)
    // unparsable, not an array, empty, or holding a null: the legacy collection
    ensures !(parsed.Elements? && |parsed.items| > 0 && !HasNull(parsed.items)) ==> r == [LegacyCollection(env)]
  {
    if Str(env, "COLLECTIONS", "") != "" && parsed.Elements? && |parsed.items| > 0 && !HasNull(parsed.items) then
      seq(|parsed.items|, i requires 0 <= i < |parsed.items| => FromRaw(parsed.items[i].value))
    else
      [LegacyCollection(env)]
  }

  // ---------------------------------------------------------------- settings

  /** The `config` object's fields the watcher reads. */
  datatype Settings = Settings(
    slackWebhookUrl: string,
    collections: seq<Collection>,
    priceThresholdYen: int,
    hotIntervalSec: int,
    warmIntervalSec: int,
    coldIntervalSec: int,
    dedupeCooldownSec: int,
    emailEnabled: bool,
    emailSmtpUser: string,
    emailFrom: string,
    emailTo: string,
    notifyStockDecrease: bool,
    notifySoldOut: bool)

  /** The `config` object: each setting read from its variable, with its default. */
  function LoadSettings(env: Env, parsed: Parsed): (r: Settings)
    ensures r.collections == ParseCollections(env, parsed) && |r.collections| >= 1
    ensures r.slackWebhookUrl == Str(env, "SLACK_WEBHOOK_URL", "")
    ensures r.priceThresholdYen == Num(env, "PRICE_THRESHOLD_YEN", 10000)
    ensures r.hotIntervalSec == Num(env, "HOT_INTERVAL_SEC", 20)
    ensures r.warmIntervalSec == Num(env, "WARM_INTERVAL_SEC", 60)
    ensures r.coldIntervalSec == Num(env, "COLD_INTERVAL_SEC", 300)
    ensures r.dedupeCooldownSec == Num(env, "DEDUPE_COOLDOWN_SEC", 180)
    ensures r.emailEnabled <==> "EMAIL_ENABLED" in env && env["EMAIL_ENABLED"] == "true"
    ensures r.notifyStockDecrease <==> "NOTIFY_STOCK_DECREASE" in env && env["NOTIFY_STOCK_DECREASE"] == "true"
    ensures r.notifySoldOut <==> "NOTIFY_SOLD_OUT" in env && env["NOTIFY_SOLD_OUT"] == "true"
    ensures r.emailSmtpUser == Str(env, "EMAIL_SMTP_USER", "") && r.emailFrom == Str(env, "EMAIL_FROM", "")
            && r.emailTo == Str(env, "EMAIL_TO", "")
  {
    Settings(
      Str(env, "SLACK_WEBHOOK_URL", ""),
      ParseCollections(env, parsed),
      Num(env, "PRICE_THRESHOLD_YEN", 10000),
      Num(env, "HOT_INTERVAL_SEC", 20),
      Num(env, "WARM_INTERVAL_SEC", 60),
      Num(env, "COLD_INTERVAL_SEC", 300),
      Num(env, "DEDUPE_COOLDOWN_SEC", 180),
      Str(env, "EMAIL_ENABLED", "false") == "true",
      Str(env, "EMAIL_SMTP_USER", ""),
      Str(env, "EMAIL_FROM", ""),
      Str(env, "EMAIL_TO", ""),
      Str(env, "NOTIFY_STOCK_DECREASE", "false") == "true",
      Str(env, "NOTIFY_SOLD_OUT", "false") == "true")
  }

  /** With nothing set, the defaults apply and the one collection is the legacy PMCG one, scheduled as hot. */
  lemma EmptyEnvironmentDefaults(parsed: Parsed)
    ensures var s := LoadSettings(map[], parsed);
            && s.priceThresholdYen == 10000 && s.hotIntervalSec == 20 && s.warmIntervalSec == 60
            && s.coldIntervalSec == 300 && s.dedupeCooldownSec == 180
            && !s.emailEnabled && !s.notifySoldOut && !s.notifyStockDecrease && s.slackWebhookUrl == ""
            && |s.collections| == 1 && s.collections[0].name == "PMCG" && s.collections[0].priority == "hot"
            && s.collections[0].base == Some(DefaultCollectionBase) && !s.collections[0].autoDetectPages
  {
    assert Str(map[], "PAGES", "1,2,3") == "1,2,3";
  }

  // ---------------------------------------------------------------- collection urls

  /** The fallback of `buildCollectionUrl` for a base `new URL` rejects: append the page parameter. */
  function BuildCollectionUrlFallback(base: string, page: int): (r: string)
    ensures |r| > |base| && r[..|base|] == base
  {
    var sep := if '?' in base then "&" else "?";
    base + sep + "page=" + JsText.IntToDecimal(page)
  }

  /**
   * The appended parameter is `&page=N` after a query and `?page=N` otherwise,
   * and N reads back as the page number.
   */
  lemma FallbackAppendsPage(base: string, page: int)
    ensures var r := BuildCollectionUrlFallback(base, page);
            var sfx := r[|base|..];
            && sfx[0] == (if '?' in base then '&' else '?')
            && sfx[1..6] == "page="
            && JsText.JsNumber(sfx[6..]) == Some(page)
            && '?' in r
  {
    var r := BuildCollectionUrlFallback(base, page);
    assert r[|base|..] == (if '?' in base then "&" else "?") + "page=" + JsText.IntToDecimal(page);
    JsText.NumberOfDecimal(page);
    if '?' !in base {
      assert r[|base|] == '?';
    }
  }
}
