/**
 * src/oneshot.js `main`: one sweep over every collection page, then one pass
 * over the target products found, with its own rules: a price change is
 * recorded but not announced, the stock-increase rule comes before the
 * restock rule, the dedup id names the current stock and price only, and
 * Slack and mail failures are both caught.
 */
module Oneshot {
  import opened Wrappers
  import JsText
  import opened JsNumbers
  import opened Events
  import Product
  import Redis
  import Config
  import Sinks
  import Email
  import Watch

  // ---------------------------------------------------------------- the decision

  /** The if/else chain of `main`: the event, or none when nothing is announced. */
  function Decide(pr: Watch.Prior, stock: int, price: int, hash: Option<string>, notifySoldOut: bool,
                  notifyStockDecrease: bool): Option<EventType>
  {
    if pr.stock.None? then Some(if Truthy(hash) then NewHighPricePage else HighPriceInStock)
    else if Watch.HashMoved(pr, hash) then Some(NewHighPricePage)
    else if PriceMoved(pr.price, price) then None
    else if Below(pr.stock.value, stock) then Some(StockIncreased)
    else if pr.stock == Some(Int(0)) && stock > 0 then Some(BackInStock)
    else if notifySoldOut && Above(pr.stock.value, 0) && stock == 0 then Some(SoldOut)
    else if notifyStockDecrease && Above(pr.stock.value, stock) && stock > 0 then Some(StockDecreased)
    else None
  }

  /** 0 -> k > 0 is caught by the stock-increase rule first, so BackInStock is never chosen. */
  lemma BackInStockUnreachable(pr: Watch.Prior, stock: int, price: int, hash: Option<string>, so: bool, sd: bool)
    ensures Decide(pr, stock, price, hash, so, sd) != Some(BackInStock)
  {
  }

  /** A moved price, with the tag unchanged, is never announced. */
  lemma PriceChangeIsSilent(pr: Watch.Prior, stock: int, price: int, hash: Option<string>, so: bool, sd: bool)
    requires pr.stock.Some? && !Watch.HashMoved(pr, hash) && PriceMoved(pr.price, price)
    ensures Decide(pr, stock, price, hash, so, sd).None?
  {
  }

  /** When `main` announces a product. */
  lemma AnnounceExactly(pr: Watch.Prior, stock: int, price: int, hash: Option<string>, so: bool, sd: bool)
    ensures Decide(pr, stock, price, hash, so, sd).Some? <==>
              || pr.stock.None? || Watch.HashMoved(pr, hash)
              || (!PriceMoved(pr.price, price)
                  && (|| Below(pr.stock.value, stock)
                      || (so && Above(pr.stock.value, 0) && stock == 0)
                      || (sd && Above(pr.stock.value, stock) && stock > 0)))
  {
  }

  /**
   * Compared with src/watch.js, the rules differ only on a moved price (not
   * announced here) and on a restock from zero (StockIncreased here).
   */
  lemma AgreesWithWatch(pr: Watch.Prior, stock: int, price: int, hash: Option<string>, so: bool, sd: bool)
    ensures var w := Watch.Decide(pr, stock, price, hash, so, sd);
            var o := Decide(pr, stock, price, hash, so, sd);
            if pr.stock.Some? && !Watch.HashMoved(pr, hash) && PriceMoved(pr.price, price)
            then w == Watch.Decision(true, PriceChanged) && o.None?
            else if pr.stock == Some(Int(0)) && stock > 0 && !Watch.HashMoved(pr, hash)
            then w == Watch.Decision(true, BackInStock) && o == Some(StockIncreased)
            else o == (if w.notify then Some(w.eventType) else None)
  {
  }

  // ---------------------------------------------------------------- the dedup id and the state write

  /** The dedup window of `main`, in seconds. */
  const DedupeTtlSec: int := 60

  /** `${eventType}::${identity}::${totalStock}::${priceYen}`. */
  function DedupId(e: EventType, identity: string, stock: int, price: int): string {
    Name(e) + "::" + identity + "::" + JsText.IntToDecimal(stock) + "::" + JsText.IntToDecimal(price)
  }

  /** Splitting the id at ':' gives the event's name first. */
  lemma LeadingName(e: EventType, identity: string, stock: int, price: int)
    ensures JsText.Split(DedupId(e, identity, stock, price), ':')[0] == Name(e)
  {
    var n := Name(e);
    assert ':' !in n by {
      forall i | 0 <= i < |n| ensures n[i] != ':' {
        assert IsAsciiLetter(n[i]);
      }
    }
    var id := DedupId(e, identity, stock, price);
    assert id[..|n|] == n && id[|n|] == ':';
    JsText.SplitHead(id, |n|, ':');
  }

  /** Different events never share a dedup key. */
  lemma DedupIdSeparatesEvents(a: EventType, ia: string, sa: int, qa: int, b: EventType, ib: string, sb: int, qb: int)
    requires DedupId(a, ia, sa, qa) == DedupId(b, ib, sb, qb)
    ensures a == b
  {
    LeadingName(a, ia, sa, qa);
    LeadingName(b, ib, sb, qb);
    NameInjective(a, b);
  }

  /** The object `main` passes to `setProductState`. */
  function StateWrite(prev: Option<Redis.ProductState>, e: Option<EventType>, p: Product.Snapshot, nowIso: string)
    : Redis.StateUpdate
  {
    var s := prev.GetOr(Redis.ProductState(None, None, None, None, None, None));
    Redis.StateUpdate(
      Redis.Val(p.totalStock),
      Redis.Val(if e.Some? then Name(e.value) else s.lastEventType.GetOr("")),
      Redis.Val(if e.Some? then nowIso else s.lastEventAt.GetOr("")),
      Redis.Val(s.firstSeenAt.GetOr(nowIso)),
      Redis.Val(p.priceYen),
      Redis.Val(if Truthy(p.hashNumber) then p.hashNumber.value else ""))
  }

  /**
   * What the next read returns after the write: the current stock, price and
   * tag, the event type of an announcement (else the stored one), and the
   * first-seen time kept once set.
   */
  lemma StateAfterWrite(prev: Option<Redis.ProductState>, e: Option<EventType>, p: Product.Snapshot, nowIso: string)
    ensures var s := prev.GetOr(Redis.ProductState(None, None, None, None, None, None));
            var r := Redis.Applied(prev, StateWrite(prev, e, p, nowIso));
            && r.lastTotalStock == Some(Int(p.totalStock))
            && r.lastPriceYen == Some(Int(p.priceYen))
            && r.lastHashNumber == (if Truthy(p.hashNumber) then p.hashNumber else None)
            && r.firstSeenAt == (if s.firstSeenAt.Some? then Watch.TextBack(s.firstSeenAt.value) else Watch.TextBack(nowIso))
            && r.lastEventType == (if e.Some? then Some(Name(e.value)) else Watch.TextBack(s.lastEventType.GetOr("")))
            && r.lastEventAt == (if e.Some? then Watch.TextBack(nowIso) else Watch.TextBack(s.lastEventAt.GetOr("")))
  {
  }

  // ---------------------------------------------------------------- one found product

  /** A target product found in the sweep, with how its notifications would fare. */
  datatype Found = Found(product: Product.Snapshot, slackOk: bool, mailOk: bool)

  /** An entry of `notifications`. */
  datatype Notice = Notice(eventType: EventType, message: string, product: Product.Snapshot,
                           prevStock: Option<Num>, prevPrice: Option<Num>)

  /** Whether the pass may go on (a store error rejects `main`), the world it leaves, and the notice, if any. */
  datatype Visit = Visit(ok: bool, world: Watch.World, notice: Option<Notice>)

  /** Slack and then mail; both failures are caught. */
  function Send(w: Watch.World, message: string, subject: string, cfg: Config.Settings, slackOk: bool, mailOk: bool)
    : Watch.World
  {
    var w1 := w.(slack := w.slack + (if cfg.slackWebhookUrl != "" && slackOk then [message] else []));
    if cfg.emailEnabled && !Email.MailOff(cfg) && mailOk
    then w1.(mails := w1.mails + [Sinks.Mail(Email.Sender(cfg), cfg.emailTo, subject, message)])
    else w1
  }

  /** The `if (notify && eventType)` block: claim the dedup key, and build and send the notice when it was new. */
  function Announce(w: Watch.World, e: EventType, identity: string, pr: Watch.Prior, f: Found, cfg: Config.Settings,
                    nowMs: int): Visit
  {
    var p := f.product;
    var o := Redis.SetNxEx(w.db, Redis.DedupeKey(DedupId(e, identity, p.totalStock, p.priceYen)), "1", DedupeTtlSec, nowMs);
    match o.reply
    case Failed => Visit(false, w, None)
    case Ok(isNew) =>
      if !isNew then Visit(true, w, None)
      else
        var message := PlainMessage(e, p.title, p.url, p.totalStock, p.priceYen, pr.stock, pr.price);
        Visit(true, Send(Watch.World(o.db, w.slack, w.mails), message, Watch.MailSubject(e, p.title), cfg, f.slackOk, f.mailOk),
              Some(Notice(e, message, p, pr.stock, pr.price)))
  }

  /** The body of `for (const p of found)`. */
  function VisitFound(w: Watch.World, f: Found, cfg: Config.Settings, nowMs: int, nowIso: string): Visit {
    var p := f.product;
    var identity := Watch.Identity(p);
    match Redis.GetProductState(w.db, identity, nowMs)
    case Failed => Visit(false, w, None)
    case Ok(prev) =>
      var pr := Watch.PriorOf(prev);
      var e := Decide(pr, p.totalStock, p.priceYen, p.hashNumber, cfg.notifySoldOut, cfg.notifyStockDecrease);
      var a := if e.Some? then Announce(w, e.value, identity, pr, f, cfg, nowMs) else Visit(true, w, None);
      if !a.ok then a
      else
        var o := Redis.HSet(a.world.db, Redis.ProductStateKey(identity), Redis.Payload(StateWrite(prev, e, p, nowIso)), nowMs);
        Visit(o.reply.Ok?, a.world.(db := o.db), a.notice)
  }

  /** A notice carries the event the rules chose and the message text of src/watch.js for it. */
  lemma NoticeIsTheDecidedEvent(w: Watch.World, f: Found, cfg: Config.Settings, nowMs: int, nowIso: string)
    requires VisitFound(w, f, cfg, nowMs, nowIso).notice.Some?
    ensures Redis.GetProductState(w.db, Watch.Identity(f.product), nowMs).Ok?
    ensures var p := f.product;
            var pr := Watch.PriorOf(Redis.GetProductState(w.db, Watch.Identity(p), nowMs).value);
            var n := VisitFound(w, f, cfg, nowMs, nowIso).notice.value;
            && Some(n.eventType) == Decide(pr, p.totalStock, p.priceYen, p.hashNumber, cfg.notifySoldOut, cfg.notifyStockDecrease)
            && n.eventType != BackInStock
            && n.message == PlainMessage(n.eventType, p.title, p.url, p.totalStock, p.priceYen, pr.stock, pr.price)
            && n.prevStock == pr.stock && n.prevPrice == pr.price && n.product == p
  {
    var p := f.product;
    var pr := Watch.PriorOf(Redis.GetProductState(w.db, Watch.Identity(p), nowMs).value);
    BackInStockUnreachable(pr, p.totalStock, p.priceYen, p.hashNumber, cfg.notifySoldOut, cfg.notifyStockDecrease);
  }

  /** A live dedup key for the event means no notice, no message and no mail. */
  lemma LiveKeySuppresses(w: Watch.World, e: EventType, identity: string, pr: Watch.Prior, f: Found,
                          cfg: Config.Settings, nowMs: int)
    requires Redis.Live(w.db, Redis.DedupeKey(DedupId(e, identity, f.product.totalStock, f.product.priceYen)), nowMs)
    ensures Announce(w, e, identity, pr, f, cfg, nowMs) == Visit(true, w, None)
  {
  }

  /** A failed Slack post or mail is caught: the pass goes on and the store ends up the same. */
  lemma SendFailuresAreCaught(w: Watch.World, f: Found, cfg: Config.Settings, nowMs: int, nowIso: string)
    ensures var worst := VisitFound(w, f.(slackOk := false, mailOk := false), cfg, nowMs, nowIso);
            var best := VisitFound(w, f.(slackOk := true, mailOk := true), cfg, nowMs, nowIso);
            worst.ok == best.ok && worst.world.db == best.world.db
            && worst.world.slack == w.slack && worst.world.mails == w.mails
  {
    var p := f.product;
    var identity := Watch.Identity(p);
    match Redis.GetProductState(w.db, identity, nowMs) {
      case Failed =>
      case Ok(prev) =>
        var pr := Watch.PriorOf(prev);
        var e := Decide(pr, p.totalStock, p.priceYen, p.hashNumber, cfg.notifySoldOut, cfg.notifyStockDecrease);
        if e.Some? {
          AnnounceFailuresAreCaught(w, e.value, identity, pr, f, cfg, nowMs);
        }
    }
  }

  /** The same for the `if (notify && eventType)` block alone; the notice does not depend on delivery. */
  lemma AnnounceFailuresAreCaught(w: Watch.World, e: EventType, identity: string, pr: Watch.Prior, f: Found,
                                  cfg: Config.Settings, nowMs: int)
    ensures var worst := Announce(w, e, identity, pr, f.(slackOk := false, mailOk := false), cfg, nowMs);
            var best := Announce(w, e, identity, pr, f.(slackOk := true, mailOk := true), cfg, nowMs);
            && worst.ok == best.ok && worst.world.db == best.world.db && worst.notice == best.notice
            && worst.world.slack == w.slack && worst.world.mails == w.mails
  {
  }

  // ---------------------------------------------------------------- main

  /** The products of the sweep that `isTargetProduct` accepts, in link order. */
  function Targets(links: seq<Watch.Link>, threshold: int): (r: seq<Found>)
    ensures |r| <= |links|
    decreases |links|
  {
    if links == [] then []
    else
      var l := links[|links| - 1];
      var p := Product.FetchProduct(l.url, l.response);
      Targets(links[..|links| - 1], threshold)
      + (if Product.IsTargetProduct(p, threshold) then [Found(p.value, l.slackOk, l.mailOk)] else [])
  }

  /** Every found product is a target fetched from one of the links. */
  lemma {:induction false} FoundAreTargets(links: seq<Watch.Link>, threshold: int)
    ensures forall f :: f in Targets(links, threshold) ==>
              exists l :: l in links && Product.FetchProduct(l.url, l.response) == Some(f.product)
                          && Product.IsTargetProduct(Some(f.product), threshold)
    decreases |links|
  {
    if links != [] {
      var init, last := links[..|links| - 1], links[|links| - 1];
      FoundAreTargets(init, threshold);
      forall f | f in Targets(links, threshold)
        ensures exists l :: l in links && Product.FetchProduct(l.url, l.response) == Some(f.product)
                            && Product.IsTargetProduct(Some(f.product), threshold)
      {
        if f in Targets(init, threshold) {
          var l :| l in init && Product.FetchProduct(l.url, l.response) == Some(f.product)
                   && Product.IsTargetProduct(Some(f.product), threshold);
          assert l in links;
        } else {
          assert last in links;
        }
      }
    }
  }

  /** Every link whose product is a target gives a found product. */
  lemma {:induction false} TargetsAreFound(links: seq<Watch.Link>, threshold: int)
    ensures forall l :: l in links && Product.IsTargetProduct(Product.FetchProduct(l.url, l.response), threshold) ==>
              Found(Product.FetchProduct(l.url, l.response).value, l.slackOk, l.mailOk) in Targets(links, threshold)
    decreases |links|
  {
    if links != [] {
      var init, last := links[..|links| - 1], links[|links| - 1];
      TargetsAreFound(init, threshold);
      assert links == init + [last];
    }
  }

  /** What `main` leaves: the notices, the world, and whether every found product was processed. */
  datatype Report = Report(world: Watch.World, notices: seq<Notice>, completed: bool)

  /** The notice as a list of zero or one. */
  function NoticeList(o: Option<Notice>): seq<Notice> {
    if o.Some? then [o.value] else []
  }

  /** The `for (const p of found)` loop; a store error rejects `main` and stops it. */
  function VisitAll(w: Watch.World, found: seq<Found>, cfg: Config.Settings, nowMs: int, nowIso: string): Report
    decreases |found|
  {
    if found == [] then Report(w, [], true)
    else Advance(VisitAll(w, found[..|found| - 1], cfg, nowMs, nowIso), found[|found| - 1], cfg, nowMs, nowIso)
  }

  /** One more found product: visited while the pass is still going, skipped once it stopped. */
  function Advance(r: Report, f: Found, cfg: Config.Settings, nowMs: int, nowIso: string): Report {
    if !r.completed then r
    else
      var v := VisitFound(r.world, f, cfg, nowMs, nowIso);
      Report(v.world, r.notices + NoticeList(v.notice), v.ok)
  }

  /** At most one notice per found product, and none of them is BackInStock. */
  lemma {:induction false} NoticesAreFew(w: Watch.World, found: seq<Found>, cfg: Config.Settings, nowMs: int, nowIso: string)
    ensures |VisitAll(w, found, cfg, nowMs, nowIso).notices| <= |found|
    ensures forall i :: 0 <= i < |VisitAll(w, found, cfg, nowMs, nowIso).notices| ==>
              VisitAll(w, found, cfg, nowMs, nowIso).notices[i].eventType != BackInStock
    decreases |found|
  {
    if found != [] {
      var r := VisitAll(w, found[..|found| - 1], cfg, nowMs, nowIso);
      NoticesAreFew(w, found[..|found| - 1], cfg, nowMs, nowIso);
      if r.completed {
        var v := VisitFound(r.world, found[|found| - 1], cfg, nowMs, nowIso);
        if v.notice.Some? {
          NoticeIsTheDecidedEvent(r.world, found[|found| - 1], cfg, nowMs, nowIso);
        }
      }
    }
  }

  /** The sweep: every link of every page, in order; a product that cannot be fetched is skipped. */
  method CollectTargets(links: seq<Watch.Link>, cfg: Config.Settings) returns (found: seq<Found>)
    ensures found == Targets(links, cfg.priceThresholdYen)
  {
    found := [];
    for i := 0 to |links|
      invariant found == Targets(links[..i], cfg.priceThresholdYen)
    {
      assert links[..i + 1][..i] == links[..i];
      var productUrl := links[i].url;
      var p := Product.FetchProduct(productUrl, links[i].response);
      if p.None? {
        continue;
      }
      if Product.IsTargetProduct(p, cfg.priceThresholdYen) {
        found := found + [Found(p.value, links[i].slackOk, links[i].mailOk)];
      }
    }
    assert links[..|links|] == links;
  }

  /** The `if (notify && eventType)` block: claim the key and, for a new event, send and keep the notice. */
  method ClaimAndSend(store: Redis.Store, out: Sinks.Outbox, e: EventType, identity: string, pr: Watch.Prior, f: Found,
                      cfg: Config.Settings, nowMs: int)
    returns (ok: bool, notice: Option<Notice>)
    modifies store, out
    ensures Visit(ok, Watch.World(store.db, out.slack, out.mails), notice)
            == Announce(Watch.World(old(store.db), old(out.slack), old(out.mails)), e, identity, pr, f, cfg, nowMs)
  {
    var p := f.product;
    var isNew := store.DedupeCheckAndSet(DedupId(e, identity, p.totalStock, p.priceYen), DedupeTtlSec, nowMs);
    if isNew.Failed? {
      return false, None;
    }
    ok, notice := true, None;
    if isNew.value {
      var message := PlainMessage(e, p.title, p.url, p.totalStock, p.priceYen, pr.stock, pr.price);
      notice := Some(Notice(e, message, p, pr.stock, pr.price));
      SendNotice(out, store.db, message, Watch.MailSubject(e, p.title), cfg, f.slackOk, f.mailOk);
    }
  }

  /** `sendSlack(message)` and, when mail is on, `sendEmail(subject, message)`, each failure caught. */
  method SendNotice(out: Sinks.Outbox, ghost db: Redis.Db, message: string, subject: string, cfg: Config.Settings,
                    slackOk: bool, mailOk: bool)
    modifies out
    ensures Watch.World(db, out.slack, out.mails)
            == Send(Watch.World(db, old(out.slack), old(out.mails)), message, subject, cfg, slackOk, mailOk)
  {
    var posted := out.SendSlack(cfg.slackWebhookUrl, message, slackOk);
    if cfg.emailEnabled {
      var sent := Email.SendEmail(out, cfg, subject, message, mailOk);
    }
  }

  /** The body of `for (const p of found)`; false when a store command failed. */
  method VisitOne(store: Redis.Store, out: Sinks.Outbox, f: Found, cfg: Config.Settings, nowMs: int, nowIso: string)
    returns (ok: bool, notice: Option<Notice>)
    modifies store, out
    ensures Visit(ok, Watch.World(store.db, out.slack, out.mails), notice)
            == VisitFound(Watch.World(old(store.db), old(out.slack), old(out.mails)), f, cfg, nowMs, nowIso)
  {
    var p := f.product;
    var identity := Watch.Identity(p);
    var read := Redis.GetProductState(store.db, identity, nowMs);
    if read.Failed? {
      return false, None;
    }
    var prev := read.value;
    var pr := Watch.PriorOf(prev);
    var eventType := Decide(pr, p.totalStock, p.priceYen, p.hashNumber, cfg.notifySoldOut, cfg.notifyStockDecrease);
    notice := None;
    if eventType.Some? {
      ok, notice := ClaimAndSend(store, out, eventType.value, identity, pr, f, cfg, nowMs);
      if !ok {
        return false, None;
      }
    }
    var written := store.SetProductState(identity, StateWrite(prev, eventType, p, nowIso), nowMs);
    ok := written.Ok?;
  }

  /** Taking one more found product. */
  lemma VisitAllSnoc(w: Watch.World, found: seq<Found>, i: nat, cfg: Config.Settings, nowMs: int, nowIso: string)
    requires i < |found|
    ensures VisitAll(w, found[..i + 1], cfg, nowMs, nowIso)
            == Advance(VisitAll(w, found[..i], cfg, nowMs, nowIso), found[i], cfg, nowMs, nowIso)
  {
    var prefix := found[..i + 1];
    assert prefix[..|prefix| - 1] == found[..i];
    assert prefix[|prefix| - 1] == found[i];
  }

  /** One turn of the loop: the next found product, and its notice pushed onto `notifications`. */
  method VisitNext(store: Redis.Store, out: Sinks.Outbox, ghost w0: Watch.World, found: seq<Found>, i: nat,
                   notifications: seq<Notice>, cfg: Config.Settings, nowMs: int, nowIso: string)
    returns (notifications': seq<Notice>, ok: bool)
    requires i < |found|
    requires VisitAll(w0, found[..i], cfg, nowMs, nowIso)
             == Report(Watch.World(store.db, out.slack, out.mails), notifications, true)
    modifies store, out
    ensures VisitAll(w0, found[..i + 1], cfg, nowMs, nowIso)
            == Report(Watch.World(store.db, out.slack, out.mails), notifications', ok)
  {
    VisitAllSnoc(w0, found, i, cfg, nowMs, nowIso);
    var notice;
    ok, notice := VisitOne(store, out, found[i], cfg, nowMs, nowIso);
    notifications' := notifications;
    if notice.Some? {
      notifications' := notifications' + [notice.value];
    }
  }

  /** The `for (const p of found)` loop of `main`. */
  method VisitEach(store: Redis.Store, out: Sinks.Outbox, found: seq<Found>, cfg: Config.Settings,
                   nowMs: int, nowIso: string) returns (r: Report)
    modifies store, out
    ensures var e := VisitAll(Watch.World(old(store.db), old(out.slack), old(out.mails)), found, cfg, nowMs, nowIso);
            r == e && store.db == e.world.db && out.slack == e.world.slack && out.mails == e.world.mails
  {
    ghost var w0 := Watch.World(store.db, out.slack, out.mails);
    var notifications: seq<Notice> := [];
    var i := 0;
    var going := true;
    while i < |found| && going
      invariant 0 <= i <= |found|
      invariant VisitAll(w0, found[..i], cfg, nowMs, nowIso)
                == Report(Watch.World(store.db, out.slack, out.mails), notifications, going)
    {
      notifications, going := VisitNext(store, out, w0, found, i, notifications, cfg, nowMs, nowIso);
      i := i + 1;
    }
    if going {
      assert found[..|found|] == found;
    } else {
      StoppedStaysStopped(w0, found, i, cfg, nowMs, nowIso);
    }
    r := Report(Watch.World(store.db, out.slack, out.mails), notifications, going);
  }

  /** `main()` over the sweep's links; `completed` is false when it rejected part-way. */
  method RunOnce(store: Redis.Store, out: Sinks.Outbox, links: seq<Watch.Link>, cfg: Config.Settings,
                 nowMs: int, nowIso: string) returns (r: Report)
    modifies store, out
    ensures var w := Watch.World(old(store.db), old(out.slack), old(out.mails));
            var e := VisitAll(w, Targets(links, cfg.priceThresholdYen), cfg, nowMs, nowIso);
            r == e && store.db == e.world.db && out.slack == e.world.slack && out.mails == e.world.mails
  {
    var found := CollectTargets(links, cfg);
    if |found| == 0 {
      return Report(Watch.World(store.db, out.slack, out.mails), [], true);
    }
    r := VisitEach(store, out, found, cfg, nowMs, nowIso);
  }

  /** Once the pass has stopped, the products after it change nothing. */
  lemma {:induction false} StoppedStaysStopped(w: Watch.World, found: seq<Found>, k: nat, cfg: Config.Settings,
                                               nowMs: int, nowIso: string)
    requires k <= |found| && !VisitAll(w, found[..k], cfg, nowMs, nowIso).completed
    ensures VisitAll(w, found, cfg, nowMs, nowIso) == VisitAll(w, found[..k], cfg, nowMs, nowIso)
    decreases |found| - k
  {
    if k < |found| {
      assert found[..k + 1][..k] == found[..k];
      StoppedStaysStopped(w, found, k + 1, cfg, nowMs, nowIso);
    } else {
      assert found[..k] == found;
    }
  }
}
