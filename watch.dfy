/**
 * src/watch.js: `handleProduct`, which decides whether a product's new
 * snapshot is worth a notification, claims the event in the dedup store,
 * notifies, and persists the new state; `processPage`, which runs it over a
 * page's product links; and the scheduling rules of `mainLoop`
 * (`getIntervalForPriority`, `isHotPage`, the due check on `lastRunTimes`).
 *
 * The store, the Slack webhook and the mail transport are `Redis.Store` and
 * `Sinks.Outbox`; whatever the network would decide (a response, a post that
 * fails) is a parameter. A rejected promise is the `Rejected` result.
 */
module Watch {
  import opened Wrappers
  import JsText
  import opened JsNumbers
  import opened Events
  import Product
  import Redis
  import Config
  import Sinks
  import Email

  // ---------------------------------------------------------------- identity

  /** `handle || productId || url`, or `${handle || productId}::#${hashNumber}` for a tagged product. */
  function Identity(p: Product.Snapshot): string {
    if Truthy(p.hashNumber) then Interpolate(OrElse(p.handle, p.productId)) + "::#" + p.hashNumber.value
    else if Truthy(p.handle) then p.handle.value
    else if Truthy(p.productId) then p.productId.value
    else p.url
  }

  /** Two tagged pages of one product share an identity exactly when they carry the same tag. */
  lemma TaggedPagesAreKeptApart(p: Product.Snapshot, q: Product.Snapshot)
    requires p.handle == q.handle && p.productId == q.productId
    requires Truthy(p.hashNumber) && Truthy(q.hashNumber)
    ensures Identity(p) == Identity(q) <==> p.hashNumber == q.hashNumber
  {
    var x := Interpolate(OrElse(p.handle, p.productId)) + "::#";
    assert Identity(p) == x + p.hashNumber.value && Identity(q) == x + q.hashNumber.value;
    if Identity(p) == Identity(q) {
      assert Identity(p)[|x|..] == p.hashNumber.value;
      assert Identity(q)[|x|..] == q.hashNumber.value;
    }
  }

  // ---------------------------------------------------------------- the decision

  /** What `handleProduct` takes from the stored state. */
  datatype Prior = Prior(stock: Option<Num>, price: Option<Num>, hash: Option<string>)

  /** `prev?.lastTotalStock ?? null`, `prev?.lastPriceYen ?? null`, `prev?.lastHashNumber || null`. */
  function PriorOf(prev: Option<Redis.ProductState>): Prior {
    match prev
    case None => Prior(None, None, None)
    case Some(s) => Prior(s.lastTotalStock, s.lastPriceYen, if Truthy(s.lastHashNumber) then s.lastHashNumber else None)
  }

  datatype Decision = Decision(notify: bool, eventType: EventType)

  /** `hashNumber && prevHashNumber !== hashNumber`. */
  predicate HashMoved(pr: Prior, hash: Option<string>) {
    Truthy(hash) && pr.hash != hash
  }

  /** The if/else chain of `handleProduct`: the first rule that applies picks the event. */
  function Decide(pr: Prior, stock: int, price: int, hash: Option<string>, notifySoldOut: bool,
                  notifyStockDecrease: bool): Decision
  {
    if pr.stock.None? then Decision(true, if Truthy(hash) then NewHighPricePage else HighPriceInStock)
    else if HashMoved(pr, hash) then Decision(true, NewHighPricePage)
    else if PriceMoved(pr.price, price) then Decision(true, PriceChanged)
    else if pr.stock == Some(Int(0)) && stock > 0 then Decision(true, BackInStock)
    else if Below(pr.stock.value, stock) then
      if stock - pr.stock.value.value >= 1 then Decision(true, StockIncreased) else Decision(false, HighPriceInStock)
    else if notifySoldOut && Above(pr.stock.value, 0) && stock == 0 then Decision(true, SoldOut)
    else if notifyStockDecrease && Above(pr.stock.value, stock) && stock > 0 then Decision(true, StockDecreased)
    else Decision(false, HighPriceInStock)
  }

  /** The first sighting always notifies: NewHighPricePage for a tagged product, else HighPriceInStock. */
  lemma FirstSightNotifies(pr: Prior, stock: int, price: int, hash: Option<string>, so: bool, sd: bool)
    requires pr.stock.None?
    ensures Decide(pr, stock, price, hash, so, sd)
            == Decision(true, if Truthy(hash) then NewHighPricePage else HighPriceInStock)
  {
  }

  /** A new tag wins over every stock and price rule. */
  lemma NewTagWins(pr: Prior, stock: int, price: int, hash: Option<string>, so: bool, sd: bool)
    requires pr.stock.Some? && HashMoved(pr, hash)
    ensures Decide(pr, stock, price, hash, so, sd) == Decision(true, NewHighPricePage)
  {
  }

  /** A moved price is reported as PriceChanged and no stock rule is consulted. */
  lemma PriceChangeSkipsStockRules(pr: Prior, stock: int, price: int, hash: Option<string>, so: bool, sd: bool)
    requires pr.stock.Some? && !HashMoved(pr, hash) && PriceMoved(pr.price, price)
    ensures Decide(pr, stock, price, hash, so, sd) == Decision(true, PriceChanged)
  {
  }

  /** 0 -> k > 0 is BackInStock, never StockIncreased; s > 0 -> k > s is StockIncreased. */
  lemma RestockEvents(pr: Prior, stock: int, price: int, hash: Option<string>, so: bool, sd: bool)
    requires pr.stock.Some? && !HashMoved(pr, hash) && !PriceMoved(pr.price, price)
    ensures pr.stock == Some(Int(0)) && stock > 0 ==> Decide(pr, stock, price, hash, so, sd) == Decision(true, BackInStock)
    ensures Above(pr.stock.value, 0) && Below(pr.stock.value, stock)
            ==> Decide(pr, stock, price, hash, so, sd) == Decision(true, StockIncreased)
  {
  }

  /** With stock, price and tag unchanged, nothing is sent. */
  lemma UnchangedIsQuiet(pr: Prior, stock: int, price: int, hash: Option<string>, so: bool, sd: bool)
    requires pr.stock == Some(Int(stock)) && !HashMoved(pr, hash) && !PriceMoved(pr.price, price)
    ensures !Decide(pr, stock, price, hash, so, sd).notify
  {
  }

  /** Selling out and decreasing stock are reported only with their switches on. */
  lemma DecreasesNeedTheirSwitches(pr: Prior, stock: int, price: int, hash: Option<string>, so: bool, sd: bool)
    requires pr.stock.Some? && !HashMoved(pr, hash) && !PriceMoved(pr.price, price) && Above(pr.stock.value, stock)
    ensures !so && stock == 0 ==> !Decide(pr, stock, price, hash, so, sd).notify
    ensures !sd && stock > 0 ==> !Decide(pr, stock, price, hash, so, sd).notify
  {
  }

  /** When `handleProduct` notifies, all its rules at once (over integers the `delta >= 1` test always holds). */
  lemma NotifyExactly(pr: Prior, stock: int, price: int, hash: Option<string>, so: bool, sd: bool)
    ensures Decide(pr, stock, price, hash, so, sd).notify <==>
              || pr.stock.None? || HashMoved(pr, hash) || PriceMoved(pr.price, price)
              || Below(pr.stock.value, stock)
              || (so && Above(pr.stock.value, 0) && stock == 0)
              || (sd && Above(pr.stock.value, stock) && stock > 0)
  {
  }

  // ---------------------------------------------------------------- the dedup id

  /** `${prev}->${curr}`, with "null" for a missing previous value. */
  function Transition(prev: Option<Num>, curr: int): string {
    (match prev
     case Some(n) => Text(n)
     case None => "null") + "->" + JsText.IntToDecimal(curr)
  }

  /** `${eventType}::${identity}::${stockKey}::${priceKey}`. */
  function DedupId(e: EventType, identity: string, pr: Prior, stock: int, price: int): string {
    Name(e) + "::" + identity + "::" + Transition(pr.stock, stock) + "::" + Transition(pr.price, price)
  }

  /** The event type leads the id, so two different events never share a dedup key. */
  lemma DedupIdSeparatesEvents(a: EventType, ia: string, pa: Prior, sa: int, qa: int,
                               b: EventType, ib: string, pb: Prior, sb: int, qb: int)
    requires DedupId(a, ia, pa, sa, qa) == DedupId(b, ib, pb, sb, qb)
    ensures a == b
  {
    LeadingName(a, ia, pa, sa, qa);
    LeadingName(b, ib, pb, sb, qb);
    NameInjective(a, b);
  }

  /** Splitting the id at ':' gives the event's name first. */
  lemma LeadingName(e: EventType, identity: string, pr: Prior, stock: int, price: int)
    ensures JsText.Split(DedupId(e, identity, pr, stock, price), ':')[0] == Name(e)
  {
    var n := Name(e);
    assert ':' !in n by {
      forall i | 0 <= i < |n| ensures n[i] != ':' {
        assert IsAsciiLetter(n[i]);
      }
    }
    var id := DedupId(e, identity, pr, stock, price);
    assert id[..|n|] == n && id[|n|] == ':';
    JsText.SplitHead(id, |n|, ':');
  }

  // ---------------------------------------------------------------- the state write

  /** The object `handleProduct` passes to `setProductState`: every property is set. */
  function StateWrite(prev: Option<Redis.ProductState>, d: Decision, p: Product.Snapshot, nowIso: string): Redis.StateUpdate {
    var s := prev.GetOr(Redis.ProductState(None, None, None, None, None, None));
    Redis.StateUpdate(
      Redis.Val(p.totalStock),
      Redis.Val(if d.notify then Name(d.eventType) else s.lastEventType.GetOr("")),
      Redis.Val(if d.notify then nowIso else s.lastEventAt.GetOr("")),
      Redis.Val(s.firstSeenAt.GetOr(nowIso)),
      Redis.Val(p.priceYen),
      Redis.Val(if Truthy(p.hashNumber) then p.hashNumber.value else ""))
  }

  /** A present, non-empty text, or null: how `getProductState` reads a text field back. */
  function TextBack(t: string): Option<string> {
    if t == "" then None else Some(t)
  }

  /**
   * What the next `getProductState` returns after the write: the current stock
   * and price exactly, the tag or null, the first-seen time kept once set, and
   * the event type and time changed only by a notification.
   */
  lemma StateAfterWrite(prev: Option<Redis.ProductState>, d: Decision, p: Product.Snapshot, nowIso: string)
    ensures var s := prev.GetOr(Redis.ProductState(None, None, None, None, None, None));
            var r := Redis.Applied(prev, StateWrite(prev, d, p, nowIso));
            && r.lastTotalStock == Some(Int(p.totalStock))
            && r.lastPriceYen == Some(Int(p.priceYen))
            && r.lastHashNumber == (if Truthy(p.hashNumber) then p.hashNumber else None)
            && r.firstSeenAt == (if s.firstSeenAt.Some? then TextBack(s.firstSeenAt.value) else TextBack(nowIso))
            && r.lastEventType == (if d.notify then Some(Name(d.eventType)) else TextBack(s.lastEventType.GetOr("")))
            && r.lastEventAt == (if d.notify then TextBack(nowIso) else TextBack(s.lastEventAt.GetOr("")))
  {
  }

  // ---------------------------------------------------------------- one call of handleProduct

  /** The store and everything sent so far. */
  datatype World = World(db: Redis.Db, slack: seq<string>, mails: seq<Sinks.Mail>)

  /** How a call ends: it resolved after writing the state, or its promise rejected. */
  datatype Handled = Finished(decision: Decision) | Rejected

  datatype Step = Step(result: Handled, world: World)

  /** Part of a call: whether it went on without throwing, and the world it leaves. */
  datatype Phase = Phase(ok: bool, world: World)

  /** The notification text. */
  function Message(d: Decision, p: Product.Snapshot, pr: Prior): string {
    PlainMessage(d.eventType, p.title, p.url, p.totalStock, p.priceYen, pr.stock, pr.price)
  }

  /** `【${eventType}】${product.title}`. */
  function MailSubject(e: EventType, title: Option<string>): string {
    "【" + Name(e) + "】" + Interpolate(title)
  }

  /** After the claim: Slack (a failed post throws), then mail when enabled (a failure is caught). */
  function Dispatch(w: World, message: string, subject: string, cfg: Config.Settings, slackOk: bool, mailOk: bool): Phase {
    if cfg.slackWebhookUrl != "" && !slackOk then Phase(false, w)
    else
      var w1 := w.(slack := w.slack + (if cfg.slackWebhookUrl != "" then [message] else []));
      if cfg.emailEnabled && !Email.MailOff(cfg) && mailOk
      then Phase(true, w1.(mails := w1.mails + [Sinks.Mail(Email.Sender(cfg), cfg.emailTo, subject, message)]))
      else Phase(true, w1)
  }

  /** The `if (notify)` block: claim the dedup key, and send only when this call claimed it. */
  function NotifyPhase(w: World, d: Decision, identity: string, pr: Prior, p: Product.Snapshot, cfg: Config.Settings,
                       nowMs: int, slackOk: bool, mailOk: bool): Phase
  {
    if !d.notify then Phase(true, w)
    else
      var key := Redis.DedupeKey(DedupId(d.eventType, identity, pr, p.totalStock, p.priceYen));
      var o := Redis.SetNxEx(w.db, key, "1", cfg.dedupeCooldownSec, nowMs);
      match o.reply
      case Failed => Phase(false, w)
      case Ok(first) =>
        if first then Dispatch(w.(db := o.db), Message(d, p, pr), MailSubject(d.eventType, p.title), cfg, slackOk, mailOk)
        else Phase(true, w.(db := o.db))
  }

  /** `handleProduct(p)` at store time `nowMs`, with `nowIso` for `new Date().toISOString()`. */
  function Handle(w: World, p: Product.Snapshot, cfg: Config.Settings, nowMs: int, nowIso: string,
                  slackOk: bool, mailOk: bool): Step
  {
    var identity := Identity(p);
    match Redis.GetProductState(w.db, identity, nowMs)
    case Failed => Step(Rejected, w)
    case Ok(prev) =>
      var pr := PriorOf(prev);
      var d := Decide(pr, p.totalStock, p.priceYen, p.hashNumber, cfg.notifySoldOut, cfg.notifyStockDecrease);
      var n := NotifyPhase(w, d, identity, pr, p, cfg, nowMs, slackOk, mailOk);
      if !n.ok then Step(Rejected, n.world)
      else
        var o := Redis.HSet(n.world.db, Redis.ProductStateKey(identity), Redis.Payload(StateWrite(prev, d, p, nowIso)), nowMs);
        Step(if o.reply.Ok? then Finished(d) else Rejected, n.world.(db := o.db))
  }

  /** Claiming a dedup key and sending leave the product's stored state as it was. */
  lemma NotifyPhaseKeepsState(w: World, d: Decision, identity: string, pr: Prior, p: Product.Snapshot,
                              cfg: Config.Settings, nowMs: int, slackOk: bool, mailOk: bool)
    ensures var n := NotifyPhase(w, d, identity, pr, p, cfg, nowMs, slackOk, mailOk);
            Redis.GetProductState(n.world.db, identity, nowMs) == Redis.GetProductState(w.db, identity, nowMs)
  {
    var eid := DedupId(d.eventType, identity, pr, p.totalStock, p.priceYen);
    Redis.KeyFamiliesDisjoint("", identity, eid);
  }

  /**
   * A call that resolves has stored what `setProductState` was given: the next
   * read returns the previous state updated by `StateWrite` for the decision
   * the rules make on that previous state.
   */
  lemma FinishedCallRecordsState(w: World, p: Product.Snapshot, cfg: Config.Settings, nowMs: int, nowIso: string,
                                 slackOk: bool, mailOk: bool)
    requires Handle(w, p, cfg, nowMs, nowIso, slackOk, mailOk).result.Finished?
    ensures Redis.GetProductState(w.db, Identity(p), nowMs).Ok?
    ensures var prev := Redis.GetProductState(w.db, Identity(p), nowMs).value;
            var d := Decide(PriorOf(prev), p.totalStock, p.priceYen, p.hashNumber, cfg.notifySoldOut, cfg.notifyStockDecrease);
            && Handle(w, p, cfg, nowMs, nowIso, slackOk, mailOk).result == Finished(d)
            && Redis.GetProductState(Handle(w, p, cfg, nowMs, nowIso, slackOk, mailOk).world.db, Identity(p), nowMs)
               == Redis.Ok(Some(Redis.Applied(prev, StateWrite(prev, d, p, nowIso))))
  {
    var identity := Identity(p);
    var prev := Redis.GetProductState(w.db, identity, nowMs).value;
    var pr := PriorOf(prev);
    var d := Decide(pr, p.totalStock, p.priceYen, p.hashNumber, cfg.notifySoldOut, cfg.notifyStockDecrease);
    var n := NotifyPhase(w, d, identity, pr, p, cfg, nowMs, slackOk, mailOk);
    NotifyPhaseKeepsState(w, d, identity, pr, p, cfg, nowMs, slackOk, mailOk);
    Redis.WriteThenRead(n.world.db, identity, StateWrite(prev, d, p, nowIso), nowMs);
  }

  /** A call that decides not to notify sends nothing and resolves exactly when the state could be read. */
  lemma QuietCallOnlyWrites(w: World, p: Product.Snapshot, cfg: Config.Settings, nowMs: int, nowIso: string,
                            slackOk: bool, mailOk: bool)
    requires Redis.GetProductState(w.db, Identity(p), nowMs).Ok?
    requires !Decide(PriorOf(Redis.GetProductState(w.db, Identity(p), nowMs).value), p.totalStock, p.priceYen,
                     p.hashNumber, cfg.notifySoldOut, cfg.notifyStockDecrease).notify
    ensures Handle(w, p, cfg, nowMs, nowIso, slackOk, mailOk).result.Finished?
    ensures Handle(w, p, cfg, nowMs, nowIso, slackOk, mailOk).world.slack == w.slack
    ensures Handle(w, p, cfg, nowMs, nowIso, slackOk, mailOk).world.mails == w.mails
  {
    var identity := Identity(p);
    var prev := Redis.GetProductState(w.db, identity, nowMs).value;
    var d := Decide(PriorOf(prev), p.totalStock, p.priceYen, p.hashNumber, cfg.notifySoldOut, cfg.notifyStockDecrease);
    Redis.WriteFailsOnlyWhenEmpty(w.db, identity, StateWrite(prev, d, p, nowIso), nowMs);
  }

  /**
   * Slack receives at most the one message, and receives it exactly when the
   * rules notify, this call claims the dedup key (it was not live and the
   * cooldown is positive), the webhook is set and the post goes through.
   */
  lemma SlackOnlyOnFirstClaim(w: World, p: Product.Snapshot, cfg: Config.Settings, nowMs: int, nowIso: string,
                              slackOk: bool, mailOk: bool)
    requires Redis.GetProductState(w.db, Identity(p), nowMs).Ok?
    ensures var pr := PriorOf(Redis.GetProductState(w.db, Identity(p), nowMs).value);
            var d := Decide(pr, p.totalStock, p.priceYen, p.hashNumber, cfg.notifySoldOut, cfg.notifyStockDecrease);
            var slack := Handle(w, p, cfg, nowMs, nowIso, slackOk, mailOk).world.slack;
            && (slack == w.slack || slack == w.slack + [Message(d, p, pr)])
            && (slack != w.slack <==>
                  && d.notify && cfg.dedupeCooldownSec > 0
                  && !Redis.Live(w.db, Redis.DedupeKey(DedupId(d.eventType, Identity(p), pr, p.totalStock, p.priceYen)), nowMs)
                  && cfg.slackWebhookUrl != "" && slackOk)
  {
    var identity := Identity(p);
    var prev := Redis.GetProductState(w.db, identity, nowMs).value;
    var pr := PriorOf(prev);
    var d := Decide(pr, p.totalStock, p.priceYen, p.hashNumber, cfg.notifySoldOut, cfg.notifyStockDecrease);
    var slack := Handle(w, p, cfg, nowMs, nowIso, slackOk, mailOk).world.slack;
    assert slack != w.slack ==> |slack| > |w.slack|;
  }

  /** A mail transport failure is caught: it changes neither the result nor the stored state. */
  lemma MailFailureIsCaught(w: World, p: Product.Snapshot, cfg: Config.Settings, nowMs: int, nowIso: string, slackOk: bool)
    ensures Handle(w, p, cfg, nowMs, nowIso, slackOk, false).result == Handle(w, p, cfg, nowMs, nowIso, slackOk, true).result
    ensures Handle(w, p, cfg, nowMs, nowIso, slackOk, false).world.db == Handle(w, p, cfg, nowMs, nowIso, slackOk, true).world.db
    ensures Handle(w, p, cfg, nowMs, nowIso, slackOk, false).world.mails == w.mails
  {
    var identity := Identity(p);
    var read := Redis.GetProductState(w.db, identity, nowMs);
    if read.Ok? {
      var pr := PriorOf(read.value);
      var d := Decide(pr, p.totalStock, p.priceYen, p.hashNumber, cfg.notifySoldOut, cfg.notifyStockDecrease);
      MailFailureInNotifyPhase(w, d, identity, pr, p, cfg, nowMs, slackOk);
    }
  }

  lemma MailFailureInNotifyPhase(w: World, d: Decision, identity: string, pr: Prior, p: Product.Snapshot,
                                 cfg: Config.Settings, nowMs: int, slackOk: bool)
    ensures var a := NotifyPhase(w, d, identity, pr, p, cfg, nowMs, slackOk, false);
            var b := NotifyPhase(w, d, identity, pr, p, cfg, nowMs, slackOk, true);
            a.ok == b.ok && a.world.db == b.world.db && a.world.mails == w.mails
  {
  }

  /**
   * A failed Slack post after a successful claim rejects the call before the
   * state write: the stored state is unchanged while the dedup key is now
   * live, so a repeat within the cooldown does not send the event either.
   */
  lemma SlackFailureSkipsStateWrite(w: World, p: Product.Snapshot, cfg: Config.Settings, nowMs: int, nowIso: string,
                                    mailOk: bool)
    requires Redis.GetProductState(w.db, Identity(p), nowMs).Ok?
    requires var pr := PriorOf(Redis.GetProductState(w.db, Identity(p), nowMs).value);
             var d := Decide(pr, p.totalStock, p.priceYen, p.hashNumber, cfg.notifySoldOut, cfg.notifyStockDecrease);
             && d.notify && cfg.dedupeCooldownSec > 0 && cfg.slackWebhookUrl != ""
             && !Redis.Live(w.db, Redis.DedupeKey(DedupId(d.eventType, Identity(p), pr, p.totalStock, p.priceYen)), nowMs)
    ensures var pr := PriorOf(Redis.GetProductState(w.db, Identity(p), nowMs).value);
            var d := Decide(pr, p.totalStock, p.priceYen, p.hashNumber, cfg.notifySoldOut, cfg.notifyStockDecrease);
            var s := Handle(w, p, cfg, nowMs, nowIso, false, mailOk);
            && s.result == Rejected
            && s.world.slack == w.slack && s.world.mails == w.mails
            && Redis.GetProductState(s.world.db, Identity(p), nowMs) == Redis.GetProductState(w.db, Identity(p), nowMs)
            && Redis.Live(s.world.db, Redis.DedupeKey(DedupId(d.eventType, Identity(p), pr, p.totalStock, p.priceYen)), nowMs)
  {
    var identity := Identity(p);
    var prev := Redis.GetProductState(w.db, identity, nowMs).value;
    var pr := PriorOf(prev);
    var d := Decide(pr, p.totalStock, p.priceYen, p.hashNumber, cfg.notifySoldOut, cfg.notifyStockDecrease);
    NotifyPhaseKeepsState(w, d, identity, pr, p, cfg, nowMs, false, mailOk);
  }

  /**
   * A dedup claim that fails (`SET ... EX` refuses a cooldown of 0 or less)
   * rejects the call before anything is sent or stored.
   */
  lemma ClaimFailureSkipsStateWrite(w: World, p: Product.Snapshot, cfg: Config.Settings, nowMs: int, nowIso: string,
                                    slackOk: bool, mailOk: bool)
    requires Redis.GetProductState(w.db, Identity(p), nowMs).Ok?
    requires var pr := PriorOf(Redis.GetProductState(w.db, Identity(p), nowMs).value);
             Decide(pr, p.totalStock, p.priceYen, p.hashNumber, cfg.notifySoldOut, cfg.notifyStockDecrease).notify
    requires cfg.dedupeCooldownSec <= 0
    ensures var s := Handle(w, p, cfg, nowMs, nowIso, slackOk, mailOk);
            s.result == Rejected && s.world == w
  {
  }

  /** `await sendSlack(message)`, then the guarded `sendEmail` whose failure is caught. */
  method Announce(out: Sinks.Outbox, cfg: Config.Settings, message: string, subject: string, slackOk: bool, mailOk: bool)
    returns (ok: bool)
    modifies out
    ensures var n := Dispatch(World(map[], old(out.slack), old(out.mails)), message, subject, cfg, slackOk, mailOk);
            ok == n.ok && out.slack == n.world.slack && out.mails == n.world.mails
  {
    var resolved := out.SendSlack(cfg.slackWebhookUrl, message, slackOk);
    if !resolved {
      return false;
    }
    if cfg.emailEnabled {
      var sent := Email.SendEmail(out, cfg, subject, message, mailOk);
    }
    ok := true;
  }

  /** The `if (notify)` block of `handleProduct`. */
  method ClaimAndAnnounce(store: Redis.Store, out: Sinks.Outbox, d: Decision, identity: string, pr: Prior,
                          p: Product.Snapshot, cfg: Config.Settings, nowMs: int, slackOk: bool, mailOk: bool)
    returns (ok: bool)
    modifies store, out
    ensures var n := NotifyPhase(World(old(store.db), old(out.slack), old(out.mails)), d, identity, pr, p, cfg, nowMs,
                                 slackOk, mailOk);
            ok == n.ok && store.db == n.world.db && out.slack == n.world.slack && out.mails == n.world.mails
  {
    if !d.notify {
      return true;
    }
    var eid := DedupId(d.eventType, identity, pr, p.totalStock, p.priceYen);
    var first := store.DedupeCheckAndSet(eid, cfg.dedupeCooldownSec, nowMs);
    if first.Failed? {
      return false;
    }
    ok := true;
    if first.value {
      ok := Announce(out, cfg, Message(d, p, pr), MailSubject(d.eventType, p.title), slackOk, mailOk);
    }
  }

  /** The event chain of `handleProduct`, one rule after the other. */
  method DecideEvent(pr: Prior, stock: int, price: int, hashNumber: Option<string>, cfg: Config.Settings)
    returns (d: Decision)
    ensures d == Decide(pr, stock, price, hashNumber, cfg.notifySoldOut, cfg.notifyStockDecrease)
  {
    var notify := false;
    var eventType := HighPriceInStock;
    if pr.stock.None? {
      notify := true;
      if Truthy(hashNumber) {
        eventType := NewHighPricePage;
      }
    } else if HashMoved(pr, hashNumber) {
      notify := true;
      eventType := NewHighPricePage;
    } else if PriceMoved(pr.price, price) {
      notify := true;
      eventType := PriceChanged;
    } else if pr.stock == Some(Int(0)) && stock > 0 {
      notify := true;
      eventType := BackInStock;
    } else if Below(pr.stock.value, stock) {
      var delta := stock - pr.stock.value.value;
      if delta >= 1 {
        notify := true;
        eventType := StockIncreased;
      }
    } else if cfg.notifySoldOut && Above(pr.stock.value, 0) && stock == 0 {
      notify := true;
      eventType := SoldOut;
    } else if cfg.notifyStockDecrease && Above(pr.stock.value, stock) && stock > 0 {
      notify := true;
      eventType := StockDecreased;
    }
    d := Decision(notify, eventType);
  }

  /** The identity lines of `handleProduct`. */
  method ProductIdentity(p: Product.Snapshot) returns (identity: string)
    ensures identity == Identity(p)
  {
    if Truthy(p.handle) {
      identity := p.handle.value;
    } else if Truthy(p.productId) {
      identity := p.productId.value;
    } else {
      identity := p.url;
    }
    if Truthy(p.hashNumber) {
      identity := Interpolate(OrElse(p.handle, p.productId)) + "::#" + p.hashNumber.value;
    }
  }

  /** `handleProduct(product)`. */
  method HandleProduct(store: Redis.Store, out: Sinks.Outbox, p: Product.Snapshot, cfg: Config.Settings,
                       nowMs: int, nowIso: string, slackOk: bool, mailOk: bool) returns (r: Handled)
    modifies store, out
    ensures var s := Handle(World(old(store.db), old(out.slack), old(out.mails)), p, cfg, nowMs, nowIso, slackOk, mailOk);
            r == s.result && store.db == s.world.db && out.slack == s.world.slack && out.mails == s.world.mails
  {
    var hashNumber := p.hashNumber;
    var identity := ProductIdentity(p);
    var read := Redis.GetProductState(store.db, identity, nowMs);
    if read.Failed? {
      return Rejected;
    }
    var prev := read.value;
    var pr := PriorOf(prev);
    var d := DecideEvent(pr, p.totalStock, p.priceYen, hashNumber, cfg);
    var ok := ClaimAndAnnounce(store, out, d, identity, pr, p, cfg, nowMs, slackOk, mailOk);
    if !ok {
      return Rejected;
    }
    var written := store.SetProductState(identity, StateWrite(prev, d, p, nowIso), nowMs);
    r := if written.Ok? then Finished(d) else Rejected;
  }

  // ---------------------------------------------------------------- processPage

  /** A product link on a page, with what its JSON request returns and how its notifications would fare. */
  datatype Link = Link(url: string, response: Option<Product.ProductJson>, slackOk: bool, mailOk: bool)

  /** The worlds and results of a run over a page's links. */
  datatype Run = Run(world: World, results: seq<Handled>)

  /** One link: fetch the product and hand it to `handleProduct` when it is a target; every error is caught. */
  function LinkStep(r: Run, l: Link, cfg: Config.Settings, nowMs: int, nowIso: string): Run {
    var p := Product.FetchProduct(l.url, l.response);
    if Product.IsTargetProduct(p, cfg.priceThresholdYen)
    then var s := Handle(r.world, p.value, cfg, nowMs, nowIso, l.slackOk, l.mailOk);
         Run(s.world, r.results + [s.result])
    else r
  }

  /** The links taken off the queue one after the other. */
  function RunLinks(w: World, links: seq<Link>, cfg: Config.Settings, nowMs: int, nowIso: string): Run
    decreases |links|
  {
    if links == [] then Run(w, [])
    else LinkStep(RunLinks(w, links[..|links| - 1], cfg, nowMs, nowIso), links[|links| - 1], cfg, nowMs, nowIso)
  }

  /** The links whose product is a target. */
  function Targets(links: seq<Link>, threshold: int): seq<Link>
    decreases |links|
  {
    if links == [] then []
    else
      var l := links[|links| - 1];
      Targets(links[..|links| - 1], threshold)
      + (if Product.IsTargetProduct(Product.FetchProduct(l.url, l.response), threshold) then [l] else [])
  }

  /** `handleProduct` only adds to what was sent. */
  lemma HandleOnlyAppends(w: World, p: Product.Snapshot, cfg: Config.Settings, nowMs: int, nowIso: string,
                          slackOk: bool, mailOk: bool)
    ensures w.slack <= Handle(w, p, cfg, nowMs, nowIso, slackOk, mailOk).world.slack
    ensures w.mails <= Handle(w, p, cfg, nowMs, nowIso, slackOk, mailOk).world.mails
  {
    if Redis.GetProductState(w.db, Identity(p), nowMs).Ok? {
      SlackOnlyOnFirstClaim(w, p, cfg, nowMs, nowIso, slackOk, mailOk);
    }
  }

  /**
   * A run hands exactly the target products to `handleProduct`, one result
   * each, and only adds to the messages and mails sent before it.
   */
  lemma {:induction false} RunHandlesTargets(w: World, links: seq<Link>, cfg: Config.Settings, nowMs: int, nowIso: string)
    ensures |RunLinks(w, links, cfg, nowMs, nowIso).results| == |Targets(links, cfg.priceThresholdYen)|
    ensures w.slack <= RunLinks(w, links, cfg, nowMs, nowIso).world.slack
    ensures w.mails <= RunLinks(w, links, cfg, nowMs, nowIso).world.mails
    decreases |links|
  {
    if links != [] {
      var init := links[..|links| - 1];
      var l := links[|links| - 1];
      var r := RunLinks(w, init, cfg, nowMs, nowIso);
      RunHandlesTargets(w, init, cfg, nowMs, nowIso);
      var p := Product.FetchProduct(l.url, l.response);
      if Product.IsTargetProduct(p, cfg.priceThresholdYen) {
        HandleOnlyAppends(r.world, p.value, cfg, nowMs, nowIso, l.slackOk, l.mailOk);
      }
    }
  }

  /** A link whose product is not a target changes nothing. */
  lemma NonTargetIsSkipped(r: Run, l: Link, cfg: Config.Settings, nowMs: int, nowIso: string)
    requires !Product.IsTargetProduct(Product.FetchProduct(l.url, l.response), cfg.priceThresholdYen)
    ensures LinkStep(r, l, cfg, nowMs, nowIso) == r
  {
  }

  /** The queue's next link, `links[done]`: fetch it and hand a target to `handleProduct`. */
  method TakeNext(store: Redis.Store, out: Sinks.Outbox, ghost w0: World, links: seq<Link>, done: nat,
                  results: seq<Handled>, cfg: Config.Settings, nowMs: int, nowIso: string)
    returns (results': seq<Handled>)
    requires done < |links|
    requires RunLinks(w0, links[..done], cfg, nowMs, nowIso) == Run(World(store.db, out.slack, out.mails), results)
    modifies store, out
    ensures RunLinks(w0, links[..done + 1], cfg, nowMs, nowIso) == Run(World(store.db, out.slack, out.mails), results')
  {
    assert links[..done + 1][..done] == links[..done];
    var link := links[done];
    results' := results;
    var p := Product.FetchProduct(link.url, link.response);
    if Product.IsTargetProduct(p, cfg.priceThresholdYen) {
      var r := HandleProduct(store, out, p.value, cfg, nowMs, nowIso, link.slackOk, link.mailOk);
      results' := results + [r];
    }
  }

  /** `processPage(base, page, isHot)` once `fetchCollectionPage` has said whether the page changed and listed its links. */
  method ProcessPage(store: Redis.Store, out: Sinks.Outbox, changed: bool, isHot: bool, links: seq<Link>,
                     cfg: Config.Settings, nowMs: int, nowIso: string) returns (results: seq<Handled>)
    modifies store, out
    ensures var w := World(old(store.db), old(out.slack), old(out.mails));
            var r := if changed || isHot then RunLinks(w, links, cfg, nowMs, nowIso) else Run(w, []);
            results == r.results && store.db == r.world.db && out.slack == r.world.slack && out.mails == r.world.mails
  {
    results := [];
    if !changed && !isHot {
      return;
    }
    results := RunQueue(store, out, links, cfg, nowMs, nowIso);
  }

  /** The `shift()` loop over the page's links, in order. */
  method RunQueue(store: Redis.Store, out: Sinks.Outbox, links: seq<Link>, cfg: Config.Settings, nowMs: int,
                  nowIso: string) returns (results: seq<Handled>)
    modifies store, out
    ensures RunLinks(World(old(store.db), old(out.slack), old(out.mails)), links, cfg, nowMs, nowIso)
            == Run(World(store.db, out.slack, out.mails), results)
  {
    results := [];
    ghost var w0 := World(store.db, out.slack, out.mails);
    var queue := links;
    var done := 0;
    assert links[..0] == [];
    while queue != []
      invariant done + |queue| == |links| && queue == links[done..]
      invariant RunLinks(w0, links[..done], cfg, nowMs, nowIso) == Run(World(store.db, out.slack, out.mails), results)
      decreases |queue|
    {
      results := TakeNext(store, out, w0, links, done, results, cfg, nowMs, nowIso);
      queue := queue[1..];
      done := done + 1;
    }
    assert links[..done] == links;
  }

  // ---------------------------------------------------------------- mainLoop's schedule

  /** `getIntervalForPriority(priority)`, in milliseconds. */
  function IntervalMs(priority: string, cfg: Config.Settings): (r: int)
    ensures r == 1000 * (if priority == "hot" then cfg.hotIntervalSec
                         else if priority == "cold" then cfg.coldIntervalSec
                         else cfg.warmIntervalSec)
  {
    if priority == "hot" then cfg.hotIntervalSec * 1000
    else if priority == "normal" then cfg.warmIntervalSec * 1000
    else if priority == "cold" then cfg.coldIntervalSec * 1000
    else cfg.warmIntervalSec * 1000
  }

  /** A priority other than the three known ones is scheduled like "normal". */
  lemma UnknownPriorityIsNormal(priority: string, cfg: Config.Settings)
    requires priority != "hot" && priority != "cold"
    ensures IntervalMs(priority, cfg) == IntervalMs("normal", cfg)
  {
  }

  /** With the default settings hot collections run every 20 s, normal ones every 60 s and cold ones every 300 s. */
  lemma DefaultIntervals(parsed: Config.Parsed, priority: string)
    ensures var cfg := Config.LoadSettings(map[], parsed);
            && IntervalMs("hot", cfg) == 20000 && IntervalMs("cold", cfg) == 300000
            && (priority != "hot" && priority != "cold" ==> IntervalMs(priority, cfg) == 60000)
  {
    Config.EmptyEnvironmentDefaults(parsed);
  }

  /** `isHotPage(pageNum)`: pages 1 to 3 are fetched even when the listing did not change. */
  predicate IsHotPage(page: int): (r: bool)
    ensures 1 <= page <= 3 ==> r
    ensures page > 3 ==> !r
    ensures page < 1 ==> r
  {
    page <= 3
  }

  /** A collection with its page list settled. */
  datatype Resolved = Resolved(name: string, base: Option<string>, pages: seq<int>, priority: string)

  /** The pages of one collection: `detectMaxPage`'s answer for an auto-detected one, else the listed pages. */
  function ResolvePages(col: Config.Collection, detected: Option<int>): seq<int>
    requires col.autoDetectPages <==> col.pages.Auto?
  {
    if col.autoDetectPages then
      if detected.Some? && detected.value != 0 then Config.PageRange(detected.value) else [1, 2, 3]
    else col.pages.pages
  }

  /**
   * An auto-detected collection runs pages 1..n for a detected maximum n,
   * and pages 1..3 when detection fails; a listed collection keeps its pages.
   */
  lemma ResolvedPages(col: Config.Collection, detected: Option<int>)
    requires col.autoDetectPages <==> col.pages.Auto?
    ensures !col.autoDetectPages ==> ResolvePages(col, detected) == col.pages.pages
    ensures col.autoDetectPages ==>
              var n := if detected.Some? && detected.value > 0 then detected.value
                       else if detected.Some? && detected.value < 0 then 0 else 3;
              |ResolvePages(col, detected)| == n && forall i :: 0 <= i < n ==> ResolvePages(col, detected)[i] == i + 1
  {
  }

  /** The resolving loop at the start of `mainLoop`; `detected[i]` is `detectMaxPage` for collection i. */
  method ResolveCollections(cols: seq<Config.Collection>, detected: seq<Option<int>>) returns (resolved: seq<Resolved>)
    requires |detected| == |cols|
    requires forall i :: 0 <= i < |cols| ==> (cols[i].autoDetectPages <==> cols[i].pages.Auto?)
    ensures |resolved| == |cols|
    ensures forall i :: 0 <= i < |cols| ==>
              resolved[i] == Resolved(cols[i].name, cols[i].base, ResolvePages(cols[i], detected[i]), cols[i].priority)
  {
    resolved := [];
    for i := 0 to |cols|
      invariant |resolved| == i
      invariant forall k :: 0 <= k < i ==>
                  resolved[k] == Resolved(cols[k].name, cols[k].base, ResolvePages(cols[k], detected[k]), cols[k].priority)
    {
      var col := cols[i];
      var pages: seq<int>;
      if col.autoDetectPages {
        var maxPage := detected[i];
        if maxPage.Some? && maxPage.value != 0 {
          pages := Config.PageRange(maxPage.value);
        } else {
          pages := [1, 2, 3];
        }
      } else {
        pages := col.pages.pages;
      }
      resolved := resolved + [Resolved(col.name, col.base, pages, col.priority)];
    }
  }

  /** `processPage(collection.base, page, isHotPage(page))`, as a request. */
  datatype PageJob = PageJob(base: Option<string>, page: int, isHot: bool)

  /** The page jobs of one collection, in page order. */
  function PageJobs(base: Option<string>, pages: seq<int>): (r: seq<PageJob>)
    ensures |r| == |pages|
    ensures forall i :: 0 <= i < |pages| ==> r[i] == PageJob(base, pages[i], IsHotPage(pages[i]))
    decreases |pages|
  {
    if pages == [] then []
    else PageJobs(base, pages[..|pages| - 1]) + [PageJob(base, pages[|pages| - 1], IsHotPage(pages[|pages| - 1]))]
  }

  /** `lastRunTimes.get(name) || 0`. */
  function LastRun(times: map<string, int>, name: string): int {
    if name in times then times[name] else 0
  }

  /** `now - lastRun >= interval`. */
  predicate Due(times: map<string, int>, c: Resolved, cfg: Config.Settings, nowMs: int) {
    nowMs - LastRun(times, c.name) >= IntervalMs(c.priority, cfg)
  }

  /** The run times and the page jobs after a pass over the collections. */
  datatype Sweep = Sweep(times: map<string, int>, jobs: seq<PageJob>)

  /** One pass of `mainLoop`'s `while (true)` body over the resolved collections, in order. */
  function Pass(times: map<string, int>, cols: seq<Resolved>, cfg: Config.Settings, nowMs: int): Sweep
    decreases |cols|
  {
    if cols == [] then Sweep(times, [])
    else
      var s := Pass(times, cols[..|cols| - 1], cfg, nowMs);
      var c := cols[|cols| - 1];
      if Due(s.times, c, cfg, nowMs) then Sweep(s.times[c.name := nowMs], s.jobs + PageJobs(c.base, c.pages))
      else s
  }

  predicate DistinctNames(cols: seq<Resolved>) {
    forall i, j :: 0 <= i < j < |cols| ==> cols[i].name != cols[j].name
  }

  /** A pass leaves the run time of a name no collection has untouched. */
  lemma {:induction false} PassKeepsOtherNames(times: map<string, int>, cols: seq<Resolved>, cfg: Config.Settings,
                                               nowMs: int, name: string)
    requires forall i :: 0 <= i < |cols| ==> cols[i].name != name
    ensures LastRun(Pass(times, cols, cfg, nowMs).times, name) == LastRun(times, name)
    decreases |cols|
  {
    if cols != [] {
      PassKeepsOtherNames(times, cols[..|cols| - 1], cfg, nowMs, name);
    }
  }

  /** The collections due at the start of the pass, and their page jobs. */
  function DueJobs(times: map<string, int>, cols: seq<Resolved>, cfg: Config.Settings, nowMs: int): seq<PageJob>
    decreases |cols|
  {
    if cols == [] then []
    else
      var c := cols[|cols| - 1];
      DueJobs(times, cols[..|cols| - 1], cfg, nowMs) + (if Due(times, c, cfg, nowMs) then PageJobs(c.base, c.pages) else [])
  }

  /**
   * With distinct names, a pass runs exactly the collections that were due
   * when it began, records the pass time for each of them, and keeps the
   * last run of the others.
   */
  lemma {:induction false} PassRunsDueCollections(times: map<string, int>, cols: seq<Resolved>, cfg: Config.Settings,
                                                  nowMs: int)
    requires DistinctNames(cols)
    ensures Pass(times, cols, cfg, nowMs).jobs == DueJobs(times, cols, cfg, nowMs)
    ensures forall k :: 0 <= k < |cols| ==>
              LastRun(Pass(times, cols, cfg, nowMs).times, cols[k].name)
              == if Due(times, cols[k], cfg, nowMs) then nowMs else LastRun(times, cols[k].name)
    decreases |cols|
  {
    if cols != [] {
      var init := cols[..|cols| - 1];
      var c := cols[|cols| - 1];
      assert DistinctNames(init) by {
        forall i, j | 0 <= i < j < |init| ensures init[i].name != init[j].name {
          assert init[i] == cols[i] && init[j] == cols[j];
        }
      }
      PassRunsDueCollections(times, init, cfg, nowMs);
      forall i | 0 <= i < |init| ensures init[i].name != c.name {
        assert init[i] == cols[i];
      }
      PassKeepsOtherNames(times, init, cfg, nowMs, c.name);
      var s := Pass(times, init, cfg, nowMs);
      var s' := Pass(times, cols, cfg, nowMs);
      assert Due(s.times, c, cfg, nowMs) == Due(times, c, cfg, nowMs);
      forall k | 0 <= k < |cols|
        ensures LastRun(s'.times, cols[k].name)
                == if Due(times, cols[k], cfg, nowMs) then nowMs else LastRun(times, cols[k].name)
      {
        if k < |init| {
          assert cols[k] == init[k];
        }
      }
    }
  }

  /** After a pass, the last run of any name is what it was or the pass time. */
  lemma {:induction false} StampOrKeep(times: map<string, int>, cols: seq<Resolved>, cfg: Config.Settings,
                                       nowMs: int, name: string)
    ensures var t := LastRun(Pass(times, cols, cfg, nowMs).times, name);
            t == LastRun(times, name) || t == nowMs
    decreases |cols|
  {
    if cols != [] {
      StampOrKeep(times, cols[..|cols| - 1], cfg, nowMs, name);
    }
  }

  /** A collection due when the pass began ends it stamped with the pass time, repeated names included. */
  lemma {:induction false} StaysStamped(times: map<string, int>, cols: seq<Resolved>, cfg: Config.Settings,
                                        nowMs: int, k: int)
    requires 0 <= k < |cols| && Due(times, cols[k], cfg, nowMs)
    ensures LastRun(Pass(times, cols, cfg, nowMs).times, cols[k].name) == nowMs
    decreases |cols|
  {
    var init := cols[..|cols| - 1];
    if k == |cols| - 1 {
      StampOrKeep(times, init, cfg, nowMs, cols[k].name);
    } else {
      assert init[k] == cols[k];
      StaysStamped(times, init, cfg, nowMs, k);
    }
  }

  /**
   * A collection that ran in this pass is not due again until its interval
   * has elapsed, and is due once it has.
   */
  lemma RanCollectionWaitsItsInterval(times: map<string, int>, cols: seq<Resolved>, cfg: Config.Settings,
                                      nowMs: int, k: int, laterMs: int)
    requires 0 <= k < |cols| && Due(times, cols[k], cfg, nowMs)
    ensures Due(Pass(times, cols, cfg, nowMs).times, cols[k], cfg, laterMs)
            <==> laterMs >= nowMs + IntervalMs(cols[k].priority, cfg)
  {
    StaysStamped(times, cols, cfg, nowMs, k);
  }

  /** `mainLoop`'s memory of when each collection last ran. */
  class Scheduler {
    var lastRunTimes: map<string, int>

    constructor()
      ensures lastRunTimes == map[]
    {
      lastRunTimes := map[];
    }

    /** The pages of one collection, queued for `processPage`. */
    static method QueuePages(start: seq<PageJob>, c: Resolved) returns (jobs: seq<PageJob>)
      ensures jobs == start + PageJobs(c.base, c.pages)
    {
      jobs := start;
      for j := 0 to |c.pages|
        invariant jobs == start + PageJobs(c.base, c.pages[..j])
      {
        assert c.pages[..j + 1][..j] == c.pages[..j];
        jobs := jobs + [PageJob(c.base, c.pages[j], IsHotPage(c.pages[j]))];
      }
      assert c.pages[..|c.pages|] == c.pages;
    }

    /** One pass of the `while (true)` body at time `nowMs`: the page jobs to run, in order. */
    method Tick(cols: seq<Resolved>, cfg: Config.Settings, nowMs: int) returns (jobs: seq<PageJob>)
      modifies this
      ensures Pass(old(lastRunTimes), cols, cfg, nowMs) == Sweep(lastRunTimes, jobs)
    {
      jobs := [];
      for i := 0 to |cols|
        invariant Pass(old(lastRunTimes), cols[..i], cfg, nowMs) == Sweep(lastRunTimes, jobs)
      {
        assert cols[..i + 1][..i] == cols[..i];
        var collection := cols[i];
        var lastRun := LastRun(lastRunTimes, collection.name);
        var interval := IntervalMs(collection.priority, cfg);
        if nowMs - lastRun >= interval {
          jobs := QueuePages(jobs, collection);
          lastRunTimes := lastRunTimes[collection.name := nowMs];
        }
      }
      assert cols[..|cols|] == cols;
    }
  }
}
