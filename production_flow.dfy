/**
 * The `handleProduct(product, collectionName)` replica of
 * tests/test-production-email-flow.js: the production decision rules with
 * the first sighting announced only for a tagged product and a price change
 * never announced, a shorter message, the mail routed by a queue key to
 * `sendBatchEmail`, a result object naming the path taken, and no state
 * write (every path returns before it).
 */
module ProductionFlow {
  import opened Wrappers
  import JsText
  import opened JsNumbers
  import opened Events
  import Product
  import Redis
  import Config
  import Sinks
  import Email
  import Url
  import Watch

  // ---------------------------------------------------------------- identity

  /** The handle taken from a `/products/<handle>` path, else the url itself (also when `new URL` throws). */
  function IdentityFromUrl(url: string): string {
    match Url.PathSegments(url)
    case Some(parts) => if |parts| >= 2 && parts[0] == "products" then parts[1] else url
    case None => url
  }

  /** `handle || productId`, else from the url, tagged with `::#<tag>`; None where the identity is empty. */
  function FlowIdentity(p: Product.Snapshot): Option<string> {
    var named := OrElse(p.handle, p.productId);
    var named' := if !Truthy(named) && p.url != "" then Some(IdentityFromUrl(p.url)) else named;
    var tagged := if Truthy(p.hashNumber) then Some(Interpolate(named') + "::#" + p.hashNumber.value) else named';
    if Truthy(tagged) then tagged else None
  }

  /** The url fallback never yields an empty identity. */
  lemma IdentityFromUrlNotEmpty(url: string)
    requires url != ""
    ensures IdentityFromUrl(url) != ""
  {
  }

  /**
   * The replica agrees with src/watch.js whenever the product has a handle
   * or id, and skips the product (null) exactly when it has no tag, no
   * handle, no id and no url.
   */
  lemma FlowIdentityFacts(p: Product.Snapshot)
    ensures Truthy(p.handle) || Truthy(p.productId) ==> FlowIdentity(p) == Some(Watch.Identity(p))
    ensures FlowIdentity(p).None? <==>
              !Truthy(p.hashNumber) && !Truthy(p.handle) && !Truthy(p.productId) && p.url == ""
  {
    if p.url != "" {
      IdentityFromUrlNotEmpty(p.url);
    }
  }

  // ---------------------------------------------------------------- the decision

  /** The replica's if/else chain. */
  function Decide(pr: Watch.Prior, stock: int, price: int, hash: Option<string>, notifySoldOut: bool,
                  notifyStockDecrease: bool): Watch.Decision
  {
    if pr.stock.None? then
      if Truthy(hash) then Watch.Decision(true, NewHighPricePage) else Watch.Decision(false, HighPriceInStock)
    else if Watch.HashMoved(pr, hash) then Watch.Decision(true, NewHighPricePage)
    else if PriceMoved(pr.price, price) then Watch.Decision(false, HighPriceInStock)
    else if pr.stock == Some(Int(0)) && stock > 0 then Watch.Decision(true, BackInStock)
    else if Below(pr.stock.value, stock) then
      if stock - pr.stock.value.value >= 1 then Watch.Decision(true, StockIncreased)
      else Watch.Decision(false, HighPriceInStock)
    else if notifySoldOut && Above(pr.stock.value, 0) && stock == 0 then Watch.Decision(true, SoldOut)
    else if notifyStockDecrease && Above(pr.stock.value, stock) && stock > 0 then Watch.Decision(true, StockDecreased)
    else Watch.Decision(false, HighPriceInStock)
  }

  /**
   * Against src/watch.js the replica is quiet on an untagged first sighting
   * and on a price change, and agrees otherwise.
   */
  lemma AgreesWithWatch(pr: Watch.Prior, stock: int, price: int, hash: Option<string>, so: bool, sd: bool)
    ensures var w := Watch.Decide(pr, stock, price, hash, so, sd);
            var f := Decide(pr, stock, price, hash, so, sd);
            if pr.stock.None? && !Truthy(hash) then w == Watch.Decision(true, HighPriceInStock) && !f.notify
            else if pr.stock.Some? && !Watch.HashMoved(pr, hash) && PriceMoved(pr.price, price)
            then w == Watch.Decision(true, PriceChanged) && !f.notify
            else f == w
  {
  }

  /** Every announced event is one other than HighPriceInStock, so every message has its header line. */
  lemma AnnouncedEventsAreNamed(pr: Watch.Prior, stock: int, price: int, hash: Option<string>, so: bool, sd: bool)
    requires Decide(pr, stock, price, hash, so, sd).notify
    ensures Decide(pr, stock, price, hash, so, sd).eventType != HighPriceInStock
  {
  }

  // ---------------------------------------------------------------- the message

  /** `(product.title || '').replace(/\s+/g, ' ').trim()`. */
  function CleanTitle(title: Option<string>): string {
    JsText.Trim(JsText.CollapseWhitespace(title.GetOr("")))
  }

  /** The cleaned title is one line, with single spaces only inside it. */
  lemma CleanTitleIsOneLine(title: Option<string>)
    ensures forall i :: 0 <= i < |CleanTitle(title)| ==>
              CleanTitle(title)[i] == ' ' || !JsText.IsWhitespace(CleanTitle(title)[i])
    ensures CleanTitle(title) == [] || (CleanTitle(title)[0] != ' ' && CleanTitle(title)[|CleanTitle(title)| - 1] != ' ')
  {
    var c := JsText.CollapseWhitespace(title.GetOr(""));
    var a := JsText.TrimOffset(c);
    var t := JsText.Trim(c);
    forall i | 0 <= i < |t| ensures t[i] == ' ' || !JsText.IsWhitespace(t[i]) {
      JsText.TrimAt(c, i);
    }
    JsText.TrimEnds(c);
    assert JsText.IsWhitespace(' ');
  }

  /** `在庫: ${prevStock} → ${totalStock}`, or `在庫: N/A → ${totalStock}`. */
  function StockLine(prevStock: Option<Num>, stock: int): string {
    "在庫: " + (match prevStock case Some(n) => Text(n) case None => "N/A") + " → " + JsText.IntToDecimal(stock)
  }

  /** The header (except for HighPriceInStock), the cleaned title, the url and the stock line. */
  function FlowMessage(e: EventType, p: Product.Snapshot, pr: Watch.Prior): string {
    var header := if e != HighPriceInStock then [HeaderLine(Name(e), p.priceYen, p.totalStock)] else [];
    JsText.Join(header + [CleanTitle(p.title), p.url, StockLine(pr.stock, p.totalStock)], "\n")
  }

  /** A message with a header starts with it, followed by a line break. */
  lemma FlowMessageStartsWithHeader(e: EventType, p: Product.Snapshot, pr: Watch.Prior)
    requires e != HighPriceInStock
    ensures var h := HeaderLine(Name(e), p.priceYen, p.totalStock);
            var m := FlowMessage(e, p, pr);
            |m| > |h| && m[..|h| + 1] == h + "\n"
  {
    var h := HeaderLine(Name(e), p.priceYen, p.totalStock);
    var parts := [h] + [CleanTitle(p.title), p.url, StockLine(pr.stock, p.totalStock)];
    assert parts[0] == h && |parts| >= 2;
    assert FlowMessage(e, p, pr) == h + "\n" + JsText.Join(parts[1..], "\n");
  }

  // ---------------------------------------------------------------- the queue key

  const CollectionsMarker: string := "/collections/"

  /** The first position at or after `from` where `/collections/` is followed by a character other than '/'. */
  function MarkerAt(url: string, from: nat): (r: Option<nat>)
    ensures r.Some? ==> from <= r.value && r.value + |CollectionsMarker| < |url|
                        && url[r.value..r.value + |CollectionsMarker|] == CollectionsMarker
                        && url[r.value + |CollectionsMarker|] != '/'
    decreases |url| - from
  {
    var m := |CollectionsMarker|;
    if from + m >= |url| then None
    else if url[from..from + m] == CollectionsMarker && url[from + m] != '/' then Some(from)
    else MarkerAt(url, from + 1)
  }

  /** `url.match(/\/collections\/([^\/]+)/)?.[1]`: the maximal run of characters other than '/' after the marker. */
  function CollectionSegment(url: string): (r: Option<string>)
    ensures r.Some? ==> r.value != [] && '/' !in r.value
  {
    match MarkerAt(url, 0)
    case None => None
    case Some(i) =>
      var rest := url[i + |CollectionsMarker|..];
      var n := Url.FirstOf(rest, {'/'});
      var seg := rest[..n];
      assert forall k :: 0 <= k < |seg| ==> seg[k] == rest[k];
      Some(seg)
  }

  /** `collectionName`, else the upper-cased segment from the url, else 'UNKNOWN' (the url must be non-empty). */
  function QueueKey(collectionName: Option<string>, url: string): Option<string> {
    if Truthy(collectionName) then collectionName
    else if url != "" then
      match CollectionSegment(url)
      case Some(seg) => Some(JsText.ToUpper(seg))
      case None => Some("UNKNOWN")
    else collectionName
  }

  /**
   * A named collection is its own key; otherwise a url gives the upper-cased
   * `/collections/` segment or 'UNKNOWN', and without a url there is no key.
   */
  lemma QueueKeyFacts(collectionName: Option<string>, url: string)
    ensures Truthy(collectionName) ==> QueueKey(collectionName, url) == collectionName
    ensures !Truthy(collectionName) && url == "" ==> !Truthy(QueueKey(collectionName, url))
    ensures !Truthy(collectionName) && url != "" ==>
              var k := QueueKey(collectionName, url).value;
              k == "UNKNOWN"
              || (k != [] && '/' !in k && forall i :: 0 <= i < |k| ==> JsText.UpperChar(k[i]) == k[i])
  {
    if !Truthy(collectionName) && url != "" {
      match CollectionSegment(url) {
        case Some(seg) =>
          var k := JsText.ToUpper(seg);
          forall i | 0 <= i < |k| ensures JsText.UpperChar(k[i]) == k[i] && k[i] != '/' {
            assert k[i] == JsText.UpperChar(seg[i]);
            assert seg[i] != '/';
          }
        case None =>
      }
    }
  }

  // ---------------------------------------------------------------- one call

  /** The `type` of the result object. */
  datatype Kind = Immediate | Batch | Unknown | Disabled | Dedupe | NoNotify

  /** `null` (no identity), the result object, or a rejected promise. */
  datatype Outcome =
    | Skipped
    | Result(sent: bool, kind: Kind, eventType: Option<EventType>, queueKey: Option<string>)
    | Threw

  datatype FlowStep = FlowStep(outcome: Outcome, world: Watch.World)

  /** `sendBatchEmail(name, ns)`, which catches its own transport failure. */
  function Mailed(w: Watch.World, cfg: Config.Settings, name: string, ns: seq<Email.Notification>, delivered: bool)
    : Watch.World
  {
    w.(mails := w.mails + (if !Email.MailOff(cfg) && ns != [] && delivered
                           then [Sinks.Mail(Email.Sender(cfg), cfg.emailTo, Email.Subject(name, ns), Email.Body(name, ns))]
                           else []))
  }

  /** The email block after a successful Slack post. */
  function MailPhase(w: Watch.World, e: EventType, message: string, p: Product.Snapshot, collectionName: Option<string>,
                     cfg: Config.Settings, mailOk: bool): FlowStep
  {
    if !cfg.emailEnabled then FlowStep(Result(false, Disabled, Some(e), None), w)
    else
      var key := QueueKey(collectionName, p.url);
      if !Truthy(key) then FlowStep(Result(false, Unknown, Some(e), None), w)
      else
        var ns := [Email.Notification(e, message, p.hashNumber)];
        if e == NewHighPricePage then FlowStep(Result(true, Immediate, Some(e), key), Mailed(w, cfg, key.value, ns, mailOk))
        else
          var finalKey := OrElse(collectionName, key);
          FlowStep(Result(true, Batch, Some(e), finalKey), Mailed(w, cfg, finalKey.value, ns, mailOk))
  }

  /** After a successful claim: `await sendSlack(message)` (a failure rejects), then the email block. */
  function Notify(w: Watch.World, e: EventType, message: string, p: Product.Snapshot, collectionName: Option<string>,
                  cfg: Config.Settings, slackOk: bool, mailOk: bool): FlowStep
  {
    if cfg.slackWebhookUrl != "" && !slackOk then FlowStep(Threw, w)
    else
      var w1 := w.(slack := w.slack + (if cfg.slackWebhookUrl != "" then [message] else []));
      MailPhase(w1, e, message, p, collectionName, cfg, mailOk)
  }

  /** The `if (notify)` block for the decision `d`: claim the dedup key, then post and mail. */
  function ClaimPhase(w: Watch.World, d: Watch.Decision, identity: string, pr: Watch.Prior, p: Product.Snapshot,
                      collectionName: Option<string>, cfg: Config.Settings, nowMs: int, slackOk: bool, mailOk: bool)
    : FlowStep
  {
    if !d.notify then FlowStep(Result(false, NoNotify, None, None), w)
    else
      var key := Redis.DedupeKey(Watch.DedupId(d.eventType, identity, pr, p.totalStock, p.priceYen));
      var o := Redis.SetNxEx(w.db, key, "1", cfg.dedupeCooldownSec, nowMs);
      Claimed(Watch.World(o.db, w.slack, w.mails), o.reply, d.eventType, FlowMessage(d.eventType, p, pr), p,
              collectionName, cfg, slackOk, mailOk)
  }

  /** What follows `dedupeCheckAndSet`'s answer `reply`, in the world `w` it left. */
  function Claimed(w: Watch.World, reply: Redis.Reply<bool>, e: EventType, message: string, p: Product.Snapshot,
                   collectionName: Option<string>, cfg: Config.Settings, slackOk: bool, mailOk: bool): FlowStep
  {
    match reply
    case Failed => FlowStep(Threw, w)
    case Ok(first) =>
      if !first then FlowStep(Result(false, Dedupe, Some(e), None), w)
      else Notify(w, e, message, p, collectionName, cfg, slackOk, mailOk)
  }

  /** The decision and the `if (notify)` block, for the state read back as `pr`. */
  function Announce(w: Watch.World, identity: string, pr: Watch.Prior, p: Product.Snapshot,
                    collectionName: Option<string>, cfg: Config.Settings, nowMs: int, slackOk: bool, mailOk: bool)
    : FlowStep
  {
    ClaimPhase(w, Decide(pr, p.totalStock, p.priceYen, p.hashNumber, cfg.notifySoldOut, cfg.notifyStockDecrease),
               identity, pr, p, collectionName, cfg, nowMs, slackOk, mailOk)
  }

  /** `handleProduct(product, collectionName)` of the replica. */
  function Flow(w: Watch.World, p: Product.Snapshot, collectionName: Option<string>, cfg: Config.Settings, nowMs: int,
                slackOk: bool, mailOk: bool): FlowStep
  {
    match FlowIdentity(p)
    case None => FlowStep(Skipped, w)
    case Some(identity) =>
      match Redis.GetProductState(w.db, identity, nowMs)
      case Failed => FlowStep(Threw, w)
      case Ok(prev) => Announce(w, identity, Watch.PriorOf(prev), p, collectionName, cfg, nowMs, slackOk, mailOk)
  }

  // ---------------------------------------------------------------- properties of a call

  /** The email block touches only the mails. */
  lemma MailPhaseKeepsStore(w: Watch.World, e: EventType, message: string, p: Product.Snapshot,
                            collectionName: Option<string>, cfg: Config.Settings, mailOk: bool)
    ensures MailPhase(w, e, message, p, collectionName, cfg, mailOk).world.db == w.db
    ensures MailPhase(w, e, message, p, collectionName, cfg, mailOk).world.slack == w.slack
  {
  }

  /** What the email block returns: `sent` only on the immediate and batch paths, which need a key. */
  lemma MailPhaseOutcome(w: Watch.World, e: EventType, message: string, p: Product.Snapshot,
                         collectionName: Option<string>, cfg: Config.Settings, mailOk: bool)
    ensures var o := MailPhase(w, e, message, p, collectionName, cfg, mailOk).outcome;
            && o.Result? && o.eventType == Some(e) && o.kind != Dedupe && o.kind != NoNotify
            && (o.sent <==> o.kind == Immediate || o.kind == Batch)
            && (o.sent ==> cfg.emailEnabled && Truthy(o.queueKey) && (o.kind == Immediate <==> e == NewHighPricePage))
  {
  }

  /** Posting and mailing leave the store as it was; a result comes only from the email block. */
  lemma NotifyFacts(w: Watch.World, e: EventType, message: string, p: Product.Snapshot, collectionName: Option<string>,
                    cfg: Config.Settings, slackOk: bool, mailOk: bool)
    ensures Notify(w, e, message, p, collectionName, cfg, slackOk, mailOk).world.db == w.db
    ensures var o := Notify(w, e, message, p, collectionName, cfg, slackOk, mailOk).outcome;
            o == Threw || (o.Result? && o.eventType == Some(e) && o.kind != Dedupe && o.kind != NoNotify
                           && (o.sent <==> o.kind == Immediate || o.kind == Batch)
                           && (o.sent ==> cfg.emailEnabled && Truthy(o.queueKey)
                                          && (o.kind == Immediate <==> e == NewHighPricePage)))
  {
    if !(cfg.slackWebhookUrl != "" && !slackOk) {
      var w1 := w.(slack := w.slack + (if cfg.slackWebhookUrl != "" then [message] else []));
      MailPhaseKeepsStore(w1, e, message, p, collectionName, cfg, mailOk);
      MailPhaseOutcome(w1, e, message, p, collectionName, cfg, mailOk);
    }
  }

  /** The store after the `if (notify)` block: as it was, or with the event's dedup key claimed. */
  lemma AnnounceFacts(w: Watch.World, identity: string, pr: Watch.Prior, p: Product.Snapshot,
                      collectionName: Option<string>, cfg: Config.Settings, nowMs: int, slackOk: bool, mailOk: bool)
    ensures var d := Decide(pr, p.totalStock, p.priceYen, p.hashNumber, cfg.notifySoldOut, cfg.notifyStockDecrease);
            var c := Redis.SetNxEx(w.db, Redis.DedupeKey(Watch.DedupId(d.eventType, identity, pr, p.totalStock, p.priceYen)),
                                   "1", cfg.dedupeCooldownSec, nowMs);
            var s := Announce(w, identity, pr, p, collectionName, cfg, nowMs, slackOk, mailOk);
            && (s.world.db == w.db || s.world.db == c.db)
            && (s.outcome.Result? && s.outcome.kind != Dedupe && s.outcome.kind != NoNotify ==>
                  d.notify && c.reply == Redis.Ok(true) && s.world.db == c.db && s.outcome.eventType == Some(d.eventType))
            && (s.outcome.Result? ==> (s.outcome.sent <==> s.outcome.kind == Immediate || s.outcome.kind == Batch))
            && (s.outcome.Result? && s.outcome.sent ==>
                  cfg.emailEnabled && s.outcome.eventType.Some? && Truthy(s.outcome.queueKey)
                  && (s.outcome.kind == Immediate <==> s.outcome.eventType == Some(NewHighPricePage)))
  {
    var d := Decide(pr, p.totalStock, p.priceYen, p.hashNumber, cfg.notifySoldOut, cfg.notifyStockDecrease);
    var c := Redis.SetNxEx(w.db, Redis.DedupeKey(Watch.DedupId(d.eventType, identity, pr, p.totalStock, p.priceYen)),
                           "1", cfg.dedupeCooldownSec, nowMs);
    if d.notify && c.reply == Redis.Ok(true) {
      NotifyFacts(Watch.World(c.db, w.slack, w.mails), d.eventType, FlowMessage(d.eventType, p, pr), p, collectionName, cfg, slackOk, mailOk);
    }
  }

  /** The replica never stores product state: every product's state reads back as before. */
  lemma NeverWritesState(w: Watch.World, p: Product.Snapshot, collectionName: Option<string>, cfg: Config.Settings,
                         nowMs: int, slackOk: bool, mailOk: bool, anyIdentity: string, atMs: int)
    ensures Redis.GetProductState(Flow(w, p, collectionName, cfg, nowMs, slackOk, mailOk).world.db, anyIdentity, atMs)
            == Redis.GetProductState(w.db, anyIdentity, atMs)
  {
    match FlowIdentity(p) {
      case None =>
      case Some(identity) =>
        match Redis.GetProductState(w.db, identity, nowMs) {
          case Failed =>
          case Ok(prev) =>
            var pr := Watch.PriorOf(prev);
            var d := Decide(pr, p.totalStock, p.priceYen, p.hashNumber, cfg.notifySoldOut, cfg.notifyStockDecrease);
            AnnounceFacts(w, identity, pr, p, collectionName, cfg, nowMs, slackOk, mailOk);
            Redis.ClaimKeepsState(w.db, Watch.DedupId(d.eventType, identity, pr, p.totalStock, p.priceYen),
                                  cfg.dedupeCooldownSec, nowMs, anyIdentity, atMs);
        }
    }
  }

  /**
   * A call that reached the email block claimed its dedup key: the identity
   * and state were read, the rules notified, and the store it leaves is the
   * store with the key claimed.
   */
  lemma ClaimedPath(w: Watch.World, p: Product.Snapshot, collectionName: Option<string>, cfg: Config.Settings,
                    nowMs: int, slackOk: bool, mailOk: bool)
    requires var o := Flow(w, p, collectionName, cfg, nowMs, slackOk, mailOk).outcome;
             o.Result? && o.kind != Dedupe && o.kind != NoNotify
    ensures FlowIdentity(p).Some? && Redis.GetProductState(w.db, FlowIdentity(p).value, nowMs).Ok?
    ensures var identity := FlowIdentity(p).value;
            var pr := Watch.PriorOf(Redis.GetProductState(w.db, identity, nowMs).value);
            var d := Decide(pr, p.totalStock, p.priceYen, p.hashNumber, cfg.notifySoldOut, cfg.notifyStockDecrease);
            var c := Redis.SetNxEx(w.db, Redis.DedupeKey(Watch.DedupId(d.eventType, identity, pr, p.totalStock, p.priceYen)),
                                   "1", cfg.dedupeCooldownSec, nowMs);
            && d.notify && c.reply == Redis.Ok(true)
            && Flow(w, p, collectionName, cfg, nowMs, slackOk, mailOk).world.db == c.db
            && Flow(w, p, collectionName, cfg, nowMs, slackOk, mailOk).outcome.eventType == Some(d.eventType)
  {
    var identity := FlowIdentity(p).value;
    var pr := Watch.PriorOf(Redis.GetProductState(w.db, identity, nowMs).value);
    AnnounceFacts(w, identity, pr, p, collectionName, cfg, nowMs, slackOk, mailOk);
  }

  /**
   * `sent` is true exactly for the immediate and batch paths (the mail
   * failure they catch can never reach them), and the immediate path is
   * taken only by NewHighPricePage.
   */
  lemma SentMeansQueued(w: Watch.World, p: Product.Snapshot, collectionName: Option<string>, cfg: Config.Settings,
                        nowMs: int, slackOk: bool, mailOk: bool)
    ensures var o := Flow(w, p, collectionName, cfg, nowMs, slackOk, mailOk).outcome;
            o.Result? ==> (o.sent <==> o.kind == Immediate || o.kind == Batch)
    ensures var o := Flow(w, p, collectionName, cfg, nowMs, slackOk, mailOk).outcome;
            o.Result? && o.sent ==> cfg.emailEnabled && o.eventType.Some? && Truthy(o.queueKey)
                                    && (o.kind == Immediate <==> o.eventType == Some(NewHighPricePage))
  {
    match FlowIdentity(p) {
      case None =>
      case Some(identity) =>
        match Redis.GetProductState(w.db, identity, nowMs) {
          case Failed =>
          case Ok(prev) =>
            AnnounceFacts(w, identity, Watch.PriorOf(prev), p, collectionName, cfg, nowMs, slackOk, mailOk);
        }
    }
  }

  /**
   * A tagged new page is mailed on its own with the `#<tag>在庫追加` subject;
   * a mail failure changes neither the result nor the store.
   */
  lemma ImmediateMailForNewPages(w: Watch.World, e: EventType, message: string, p: Product.Snapshot,
                                 collectionName: Option<string>, cfg: Config.Settings, mailOk: bool)
    requires e == NewHighPricePage && cfg.emailEnabled && Truthy(QueueKey(collectionName, p.url))
    ensures var s := MailPhase(w, e, message, p, collectionName, cfg, mailOk);
            var key := QueueKey(collectionName, p.url).value;
            && s.outcome == Result(true, Immediate, Some(e), Some(key))
            && s.world.db == w.db && s.world.slack == w.slack
            && s.world.mails == w.mails + (if !Email.MailOff(cfg) && mailOk
                                           then [Sinks.Mail(Email.Sender(cfg), cfg.emailTo, "#" + Joined(p.hashNumber) + "在庫追加",
                                                            Email.Body(key, [Email.Notification(e, message, p.hashNumber)]))]
                                           else [])
  {
  }

  /**
   * Calling again with the same product inside the cooldown, after a call
   * that claimed the dedup key, gives the `dedupe` result: nothing was
   * stored, so the same event is decided again and its key is still live.
   */
  lemma RepeatIsDeduplicated(w: Watch.World, p: Product.Snapshot, collectionName: Option<string>, cfg: Config.Settings,
                             nowMs: int, laterMs: int, slackOk: bool, mailOk: bool, slackOk': bool, mailOk': bool)
    requires var o := Flow(w, p, collectionName, cfg, nowMs, slackOk, mailOk).outcome;
             o.Result? && o.kind != Dedupe && o.kind != NoNotify
    requires FlowIdentity(p).Some?
    requires Redis.GetProductState(w.db, FlowIdentity(p).value, laterMs) == Redis.GetProductState(w.db, FlowIdentity(p).value, nowMs)
    requires nowMs <= laterMs < nowMs + cfg.dedupeCooldownSec * 1000
    ensures var first := Flow(w, p, collectionName, cfg, nowMs, slackOk, mailOk);
            Flow(first.world, p, collectionName, cfg, laterMs, slackOk', mailOk').outcome
            == Result(false, Dedupe, first.outcome.eventType, None)
  {
    var identity := FlowIdentity(p).value;
    var first := Flow(w, p, collectionName, cfg, nowMs, slackOk, mailOk);
    ClaimedPath(w, p, collectionName, cfg, nowMs, slackOk, mailOk);
    NeverWritesState(w, p, collectionName, cfg, nowMs, slackOk, mailOk, identity, laterMs);
    var prev := Redis.GetProductState(w.db, identity, nowMs).value;
    var pr := Watch.PriorOf(prev);
    var d := Decide(pr, p.totalStock, p.priceYen, p.hashNumber, cfg.notifySoldOut, cfg.notifyStockDecrease);
    var eid := Watch.DedupId(d.eventType, identity, pr, p.totalStock, p.priceYen);
    Redis.DedupeWindow(w.db, eid, cfg.dedupeCooldownSec, nowMs, laterMs);
    assert Redis.GetProductState(first.world.db, identity, laterMs) == Redis.Ok(prev);
  }

  // ---------------------------------------------------------------- the replica as code

  /** The identity lines of the replica. */
  method Identify(p: Product.Snapshot) returns (identity: Option<string>)
    ensures identity == FlowIdentity(p)
  {
    identity := OrElse(p.handle, p.productId);
    if !Truthy(identity) && p.url != "" {
      var pathParts := Url.PathSegments(p.url);
      if pathParts.Some? && |pathParts.value| >= 2 && pathParts.value[0] == "products" {
        identity := Some(pathParts.value[1]);
      } else {
        identity := Some(p.url);
      }
    }
    if Truthy(p.hashNumber) {
      identity := Some(Interpolate(identity) + "::#" + p.hashNumber.value);
    }
    if !Truthy(identity) {
      identity := None;
    }
  }

  /** The queue-key lines of the email block. */
  method FindQueueKey(collectionName: Option<string>, url: string) returns (queueKey: Option<string>)
    ensures queueKey == QueueKey(collectionName, url)
  {
    queueKey := collectionName;
    if !Truthy(queueKey) && url != "" {
      var urlMatch := CollectionSegment(url);
      if urlMatch.Some? {
        queueKey := Some(JsText.ToUpper(urlMatch.value));
      } else {
        queueKey := Some("UNKNOWN");
      }
    }
  }

  /** The email block of the replica. */
  method SendMail(out: Sinks.Outbox, ghost db: Redis.Db, e: EventType, message: string, p: Product.Snapshot,
                  collectionName: Option<string>, cfg: Config.Settings, mailOk: bool) returns (r: Outcome)
    modifies out
    ensures var s := MailPhase(Watch.World(db, old(out.slack), old(out.mails)), e, message, p, collectionName, cfg, mailOk);
            r == s.outcome && out.slack == s.world.slack && out.mails == s.world.mails
  {
    if !cfg.emailEnabled {
      return Result(false, Disabled, Some(e), None);
    }
    var queueKey := FindQueueKey(collectionName, p.url);
    if !Truthy(queueKey) {
      return Result(false, Unknown, Some(e), None);
    }
    var ns := [Email.Notification(e, message, p.hashNumber)];
    if e == NewHighPricePage {
      Email.SendBatchEmail(out, cfg, queueKey.value, ns, mailOk);
      return Result(true, Immediate, Some(e), queueKey);
    }
    var finalQueueKey := OrElse(collectionName, queueKey);
    Email.SendBatchEmail(out, cfg, finalQueueKey.value, ns, mailOk);
    r := Result(true, Batch, Some(e), finalQueueKey);
  }

  /** `await sendSlack(message)` followed by the email block. */
  method Post(out: Sinks.Outbox, ghost db: Redis.Db, e: EventType, message: string, p: Product.Snapshot,
              collectionName: Option<string>, cfg: Config.Settings, slackOk: bool, mailOk: bool) returns (r: Outcome)
    modifies out
    ensures var s := Notify(Watch.World(db, old(out.slack), old(out.mails)), e, message, p, collectionName, cfg,
                            slackOk, mailOk);
            r == s.outcome && out.slack == s.world.slack && out.mails == s.world.mails
  {
    var resolved := out.SendSlack(cfg.slackWebhookUrl, message, slackOk);
    if !resolved {
      return Threw;
    }
    r := SendMail(out, db, e, message, p, collectionName, cfg, mailOk);
  }

  /** The answer of `dedupeCheckAndSet`: a failure rejects, a repeat is `dedupe`, a first claim posts and mails. */
  method Respond(out: Sinks.Outbox, ghost db: Redis.Db, first: Redis.Reply<bool>, e: EventType, message: string,
                 p: Product.Snapshot, collectionName: Option<string>, cfg: Config.Settings, slackOk: bool, mailOk: bool)
    returns (r: Outcome)
    modifies out
    ensures FlowStep(r, Watch.World(db, out.slack, out.mails))
            == Claimed(Watch.World(db, old(out.slack), old(out.mails)), first, e, message, p, collectionName, cfg,
                       slackOk, mailOk)
  {
    if first.Failed? {
      return Threw;
    }
    if !first.value {
      return Result(false, Dedupe, Some(e), None);
    }
    r := Post(out, db, e, message, p, collectionName, cfg, slackOk, mailOk);
  }

  /** The dedup claim and the `if (notify)` block for the decision `d`. */
  method Claim(store: Redis.Store, out: Sinks.Outbox, d: Watch.Decision, identity: string, pr: Watch.Prior,
               p: Product.Snapshot, collectionName: Option<string>, cfg: Config.Settings, nowMs: int, slackOk: bool,
               mailOk: bool)
    returns (r: Outcome)
    modifies store, out
    ensures FlowStep(r, Watch.World(store.db, out.slack, out.mails))
            == ClaimPhase(Watch.World(old(store.db), old(out.slack), old(out.mails)), d, identity, pr, p,
                          collectionName, cfg, nowMs, slackOk, mailOk)
  {
    if !d.notify {
      return Result(false, NoNotify, None, None);
    }
    var eid := Watch.DedupId(d.eventType, identity, pr, p.totalStock, p.priceYen);
    ghost var w1 := Watch.World(Redis.SetNxEx(store.db, Redis.DedupeKey(eid), "1", cfg.dedupeCooldownSec, nowMs).db, out.slack, out.mails);
    var first := store.DedupeCheckAndSet(eid, cfg.dedupeCooldownSec, nowMs);
    assert w1 == Watch.World(store.db, out.slack, out.mails);
    r := Respond(out, store.db, first, d.eventType, FlowMessage(d.eventType, p, pr), p, collectionName, cfg,
                 slackOk, mailOk);
  }

  /** `handleProduct(product, collectionName)` of the replica. */
  method HandleProduct(store: Redis.Store, out: Sinks.Outbox, p: Product.Snapshot, collectionName: Option<string>,
                       cfg: Config.Settings, nowMs: int, slackOk: bool, mailOk: bool) returns (r: Outcome)
    modifies store, out
    ensures var s := Flow(Watch.World(old(store.db), old(out.slack), old(out.mails)), p, collectionName, cfg, nowMs,
                          slackOk, mailOk);
            r == s.outcome && store.db == s.world.db && out.slack == s.world.slack && out.mails == s.world.mails
  {
    var identity := Identify(p);
    if identity.None? {
      return Skipped;
    }
    var read := Redis.GetProductState(store.db, identity.value, nowMs);
    if read.Failed? {
      return Threw;
    }
    var pr := Watch.PriorOf(read.value);
    var d := Decide(pr, p.totalStock, p.priceYen, p.hashNumber, cfg.notifySoldOut, cfg.notifyStockDecrease);
    r := Claim(store, out, d, identity.value, pr, p, collectionName, cfg, nowMs, slackOk, mailOk);
  }
}
