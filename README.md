# hare2_watcher in Dafny

hare2_watcher watches collection pages of an online card shop. For each product that is in stock and priced at or above a yen threshold, it keeps a state record in Redis: last stock, last price and last `#dddd` tag. When a snapshot differs from that record in a way its rules care about, it announces an event such as a first sighting, a new tagged page, a restock or a price change. The announcement goes to a Slack webhook and, when enabled, by mail. A dedup key with a time to live stops the same event going out twice.

This project models the core of that program and proves properties of the model:

- **Snapshot (`src/product.js`)**: the stock total, the largest variant price in yen, and the `#dddd` tag taken from the title (module `Product`).
- **Store (`src/redis.js`)**: the key families, the product-state encoding and its read-back, the dedup claim (`SET NX EX`) and the one-hour page-hash expiry. All keys live in one store keyspace with an explicit clock (module `Redis`).
- **Settings (`src/config.js`)**: the settings read from the environment, the collection list with its page normalisation, and the `page=` fallback of `buildCollectionUrl` (module `Config`).
- **Mail (`src/email.js`)**: `sendEmail`, and `sendBatchEmail` with its subject, line cleaning, header-line removal and blank-run collapsing (module `Email`).
- **Watcher (`src/watch.js`)**: `handleProduct`, `processPage`, the priority intervals, the hot-page rule and the due check of `mainLoop` (module `Watch`).
- **One-shot run (`src/oneshot.js` `main`)**: the one-shot sweep, with its own decision rules, dedup id and error handling (module `Oneshot`).
- **Test replica (`tests/test-production-email-flow.js`)**: the replica of `handleProduct`, with its queue key, result objects and immediate or batched mail (module `ProductionFlow`).

Helper modules:

- `Wrappers`: `Option`.
- `JsText`: the JavaScript string and number primitives the source relies on (`trim`, `split`, `join`, `String(n)`, `Number(s)`, `toLocaleString`, `toUpperCase`, the two regular-expression rewrites).
- `JsNumbers`: a number read back from the store, which is an integer or NaN.
- `Url`: the `pathname` part of URL parsing.
- `Events`: the event names and the notification text.
- `EmailOpening`: how the batch mail body opens.
- `Sinks`: an `Outbox` class recording the Slack posts and mails that went through.

State that the source changes in place is a class:

- `Redis.Store` (the store).
- `Sinks.Outbox` (what was sent).
- `Watch.Scheduler` (`lastRunTimes`).

Each method that changes state is proved against a function of the old state: `Watch.Handle`, `Watch.RunLinks`, `Watch.Pass`, `Oneshot.VisitAll`, `ProductionFlow.Flow`, `Email.Body`. The lemmas state what the source promises about those functions.

Network answers, the clock and delivery outcomes are parameters:

- per link: the product JSON response, and whether its Slack post and mail go through;
- per page: whether the page changed;
- per auto-detected collection: the page count found;
- the store time `nowMs`, and `nowIso` for `new Date().toISOString()`.

A call whose promise rejects ends as `Rejected`, `Threw` or `completed == false`, depending on the module.

### Behaviour of the code worth knowing

The member named in each item proves the behaviour as the code has it.

- **Failures stop the state write in src/watch.js.** A failed dedup claim (`dedupeCheckAndSet` rejects) or a failed Slack post (`sendSlack` throws) rejects `handleProduct` before it reaches `setProductState` (src/watch.js:85-122). See `Watch.ClaimFailureSkipsStateWrite` and `Watch.SlackFailureSkipsStateWrite`.
- **A price change beats a restock.** In src/watch.js the price-change rule comes before the restock rule, so 0 → k with a moved price is `PriceChanged`, not `BackInStock`. See `Watch.PriceChangeSkipsStockRules`.
- **oneshot.js never announces BackInStock.** Its stock-increase rule precedes the restock rule (src/oneshot.js:88-95), so `BackInStock` is never chosen. See `Oneshot.BackInStockUnreachable`.
- **The delta test is always true.** src/watch.js and the replica apply `delta >= 1` after establishing `totalStock > prevStock`. Over the integer stocks the snapshot produces, that test always holds. See `Watch.NotifyExactly`.
- **The replica never stores state.** The comment on its state write (tests/test-production-email-flow.js:201) says the state is always saved. But every path of the replica returns before that write (tests/test-production-email-flow.js:106-199), so it never stores product state. See `ProductionFlow.NeverWritesState`.

## Model

| member | source | states |
|---|---|---|
| JsNumbers.FromText | src/redis.js:37 | `Number(text)` is an integer exactly when the text denotes one (surrounding white space allowed, blank is 0), and then it is that integer; otherwise NaN |
| JsNumbers.TextRoundTrip | src/redis.js:37-53 | a number written with `String(n)` reads back through `Number` as itself, and NaN as NaN |
| JsNumbers.NullTextIsNaN | src/redis.js:49 | a stock written as `String(null)` reads back as NaN |
| JsText.CollapseWhitespace | tests/test-production-email-flow.js:114 | after `/\s+/g → ' '` the only white space left is single spaces, and an empty title stays empty |
| JsText.CollapseBlankRuns | src/email.js:94 | after `/\n{3,}/g → '\n\n'` no three newlines are adjacent; the result is empty exactly when the input is |
| JsText.CollapseKeepsText | src/email.js:94 | collapsing newline runs removes newlines and nothing else |
| JsText.SplitFacts | src/config.js:73 | the pieces of `split(c)` hold no `c`, there are two or more exactly when the text holds `c`, and joining them with `c` gives the text back |
| JsText.NumberOfDecimal | src/redis.js:49 | `Number(String(n)) === n` for every integer |
| JsText.DecimalInjective | src/watch.js:82-84 | distinct integers print differently, so distinct stocks or prices give distinct dedup ids |
| Url.Pathname | src/product.js:14-15 | a parsed path starts with '/' and holds no '?' or '#'; no path where `new URL` throws |
| Url.PathSegments | src/product.js:15 | `pathname.split('/').filter(Boolean)` gives non-empty segments without '/' |
| Product.ParseYen | src/product.js:3-8 | a finite price in cents gives the yen amount nearest to cents/100, with halves rounding up; a non-finite price gives null |
| Product.MaxPriceYen | src/product.js:34-37 | the snapshot price is at least 0, at least every variant's yen price (null counting 0), and equal to one of them unless it is 0 |
| Product.TotalStock | src/product.js:25-33 | the stock total is non-negative and at least the number of available variants |
| Product.PositiveStockHasSource | src/product.js:25-33 | a positive total means some variant contributed stock |
| Product.ExtractHashNumber | src/product.js:52-56 | null for a falsy title; otherwise the four digits after the first `#dddd` in the title, and null exactly when there is none |
| Product.HandleOrId | src/product.js:12-18 | the handle taken from the product URL is a non-empty path segment |
| Product.FetchProduct | src/product.js:10-49 | a snapshot exactly when the URL yields a handle and the response is ok; it keeps the URL and title, carries the title's tag, keeps the product's id and handle, and its stock is `Product.TotalStock` and its price `Product.MaxPriceYen` of the variants (none when `variants` is not an array, so 0/0); both are non-negative |
| Product.IsTargetProduct | src/product.js:58-63 | false for no product; otherwise true exactly when the stock is positive and the price is at or above the threshold |
| Product.FetchedTargetHasStockAndPrice | src/product.js:58-63 | with a positive threshold, a fetched target has a variant with stock and a variant priced at or above the threshold |
| Events.Name | src/watch.js:38-76 | each event name is a non-empty run of ASCII letters |
| Events.NameInjective | src/watch.js:38-76 | distinct events have distinct names |
| Events.PlainMessageStartsWithHeader | src/watch.js:88-101 | the notification text starts with its `【event】¥price 在庫stock` line and a line break |
| Redis.KeyFamiliesDisjoint | src/redis.js:18-20 | page-hash, product-state and dedup keys never collide |
| Redis.KeysInjective | src/redis.js:18-20 | within a family, distinct names give distinct keys |
| Redis.Get | src/redis.js:22-25 | `GET` answers null exactly when the key is missing or expired |
| Redis.SetEx | src/redis.js:27-30 | `SET EX` succeeds exactly for a positive expiry and then changes only its key |
| Redis.SetNxEx | src/redis.js:58-63 | `SET NX EX` fails for a non-positive expiry, answers OK exactly when the key was not live, changes nothing unless it answered OK, and leaves the key live |
| Redis.HGetAll | src/redis.js:34 | a missing or expired key has no fields |
| Redis.HSet | src/redis.js:55 | `HSET` merges the payload into the hash, and fails, changing nothing, for an empty payload or a text key |
| Redis.NumField | src/redis.js:37 | a numeric field is null exactly when it is missing or empty |
| Redis.TextField | src/redis.js:38-42 | a text field is null exactly when it is missing or empty, and otherwise is the stored text |
| Redis.DecodeState | src/redis.js:32-44 | `getProductState` is null exactly when the hash has no fields |
| Redis.PayloadEmpty | src/redis.js:46-56 | the payload is empty exactly when every property is undefined |
| Redis.PayloadFields | src/redis.js:48-54 | the payload holds a field exactly for each defined property, with `String(...)` or `?? ''` applied |
| Redis.WriteThenRead | src/redis.js:32-56 | after an accepted `setProductState(u)`, `getProductState` returns the previous state updated by `u`: numbers exactly, 0 included; null stock as NaN; empty texts as null; undefined properties unchanged |
| Redis.WriteFailsOnlyWhenEmpty | src/redis.js:46-56 | a state write fails exactly when it has no fields or the key holds a text |
| Redis.DedupeWindow | src/redis.js:58-63 | the first claim succeeds exactly when the key is not live; within the TTL every repeat answers false and changes nothing; from the expiry on a claim succeeds again |
| Redis.ClaimKeepsState | src/redis.js:19-20 | claiming a dedup key leaves every product state as it reads |
| Redis.CollectionHashLifetime | src/redis.js:27-30 | a page hash reads back for 3600 s after it is written and is gone afterwards |
| Redis.Store.SetProductState | src/redis.js:46-56 | building the payload field by field and sending `HSET` is the `HSet` of `Payload(u)` |
| Redis.Store.DedupeCheckAndSet | src/redis.js:58-63 | the answer and the new store are those of `SET key 1 NX EX ttl` |
| Redis.Store.SetCollectionHash | src/redis.js:27-30 | the key is set to the hash with an expiry 3600 s ahead |
| Config.Num | src/config.js:5-10 | an unset or empty variable gives the default; otherwise its number when finite, else the default |
| Config.Str | src/config.js:12-15 | the variable's value unless unset or empty, else the default, so a non-empty default never gives "" |
| Config.PageRange | src/config.js:18-24 | pages 1..n in order, none for n < 1 |
| Config.GeneratePageRange | src/config.js:18-24 | the loop pushes exactly 1..maxPage |
| Config.AtLeast | src/config.js:44 | `filter(p => p >= start)` keeps only pages of the list at or above `start` |
| Config.RangeIsConsecutive | src/config.js:44 | `generatePageRange(end).filter(p => p >= start)` is the consecutive run from max(start, 1) to end |
| Config.NormalizePages | src/config.js:34-50 | 'all' or '*' is auto (and nothing else is), an array is kept, a text holding '-' is a range (see `Config.RangeSpec`), any other truthy value is `[Number(v)]` when finite (`true` is [1], an object is []), and a falsy value is [1, 2, 3] |
| Config.RangeSpec | src/config.js:40-45 | a range "a-b" with finite ends is the consecutive run max(a, 1)..b, else no pages |
| Config.FromRaw | src/config.js:52-58 | a given non-empty name and priority are kept, and a missing or empty one becomes 'unknown' and 'normal'; the base is a given non-empty `base`, else `url`; the pages are `NormalizePages` of the entry's pages, and the collection auto-detects exactly when they are 'auto' |
| Config.LegacyCollection | src/config.js:66-82 | the legacy collection is PMCG, scheduled hot, on `TARGET_COLLECTION_BASE` or the default base; it auto-detects exactly when PAGES is 'all' or '*', and otherwise its pages are the finite numbers of the comma-separated PAGES list, in order |
| Config.FiniteNumbersMembers | src/config.js:73 | a page is in the list exactly when some comma-separated entry, trimmed, is a finite number equal to it |
| Config.FiniteMembers | src/config.js:73 | `filter(Number.isFinite)` keeps a number exactly when it is among the numbers read |
| Config.ParseCollections | src/config.js:27-83 | at least one collection, each auto-detecting exactly when its pages are 'auto'; for a set `COLLECTIONS` holding a non-empty array without a null element, one collection per element, in order; in every other case (unset, unparsable, not an array, empty, or holding null) the single legacy collection |
| Config.EmptyEnvironmentDefaults | src/config.js:85-113 | with no variables set: threshold 10000, intervals 20/60/300 s, cooldown 180 s, mail and decrease/sold-out notices off, no webhook, and one PMCG hot collection on the default base |
| Config.LoadSettings | src/config.js:85-113 | every setting is read from its variable with its default (`num` or `str`); mail and the decrease/sold-out notices are on exactly when their variable is the text `true`; the collections are those of `ParseCollections` |
| Config.BuildCollectionUrlFallback | src/config.js:120-124 | the fallback URL starts with the base |
| Config.FallbackAppendsPage | src/config.js:120-124 | it appends `&page=N` after a query and `?page=N` otherwise, and N reads back as the page |
| Sinks.Outbox.SendSlack | src/slack.js:3-20 | without a webhook it resolves and posts nothing; otherwise it resolves exactly when the post goes through, and only then is the message recorded |
| Sinks.Outbox.Deliver | src/email.js:39 | a mail is recorded exactly when the transport accepts it |
| Email.SendEmail | src/email.js:21-48 | disabled (nothing sent) when mail is off or has no recipient; otherwise one mail from `emailFrom \|\| emailSmtpUser`, and a transport failure ends in a throw |
| Email.TidyLinesAreTrimmed | src/email.js:73-76 | every kept line is non-empty, one line, and already trimmed |
| Email.CleanOne | src/email.js:73-84 | the loop body's cleaned message is `CleanMessage` |
| Email.PushEntries | src/email.js:71-89 | the loop appends each non-empty cleaned message and one blank line, in order |
| Email.BuildBody | src/email.js:65-95 | the method builds `Email.Body`: the opening lines and entries, joined, blank runs collapsed, trimmed (`EmailOpening.BodyOpens` states how it opens) |
| EmailOpening.BodyOpens | src/email.js:65-95 | the body starts with `【name】の在庫・価格変動通知` and `変動件数: n件` for the n notifications; when some cleaned message is non-empty a blank line and visible text follow, and otherwise the body is just those two lines |
| Email.Subject | src/email.js:57-63 | a lone NewHighPricePage gives `#` + its tag (or nothing) + `在庫追加`; any other batch gives `【name】在庫・価格変動通知 (n件)` with n the number of notifications |
| Email.SendBatchEmail | src/email.js:51-103 | nothing is sent when mail is off or the list is empty; otherwise exactly one mail with the subject and body, or none if the transport fails, which is caught |
| Email.FinishIsTidy | src/email.js:92-95 | a finished text has no three newlines in a row and no white space at either end |
| Email.BodyIsTidy | src/email.js:91-95 | the same for every batch body |
| Email.EmptyMessageAddsNothing | src/email.js:85-88 | a notification whose cleaned message is empty adds no line, not even the blank one |
| Email.HeaderLineIsHeaderLike | src/email.js:80 | every header line src/watch.js and src/oneshot.js write matches `/^【.+】¥[\d,]+ 在庫\d+$/` |
| Email.HeaderLikeMeans | src/email.js:80 | the match succeeds exactly when the line splits as `【`, `.+`, `】¥`, `[\d,]+`, ` 在庫`, `\d+` |
| Email.HeaderNeverSurvives | src/email.js:78-84 | a message starting with such a header loses exactly that line |
| Watch.TaggedPagesAreKeptApart | src/watch.js:22-27 | two tagged pages of one product share an identity exactly when they carry the same tag |
| Watch.ProductIdentity | src/watch.js:22-27 | the identity lines compute `Identity` |
| Watch.DecideEvent | src/watch.js:37-77 | the event chain computes `Decide` |
| Watch.FirstSightNotifies | src/watch.js:40-46 | with no stored stock, it notifies NewHighPricePage for a tagged product, else HighPriceInStock |
| Watch.NewTagWins | src/watch.js:47-50 | a new tag is NewHighPricePage whatever stock and price do |
| Watch.PriceChangeSkipsStockRules | src/watch.js:51-54 | a moved price (NaN counts as moved) is PriceChanged and no stock rule applies |
| Watch.RestockEvents | src/watch.js:55-68 | 0 → k > 0 is BackInStock; s > 0 → k > s is StockIncreased |
| Watch.UnchangedIsQuiet | src/watch.js:37-77 | unchanged stock, price and tag notify nothing |
| Watch.DecreasesNeedTheirSwitches | src/watch.js:69-77 | sold-out and decrease events need their switches on |
| Watch.NotifyExactly | src/watch.js:37-77 | the exact condition under which `handleProduct` notifies |
| Watch.DedupIdSeparatesEvents | src/watch.js:82-84 | two different events never share a dedup id |
| Watch.LeadingName | src/watch.js:84 | the dedup id starts with the event name up to the first ':' |
| Watch.StateAfterWrite | src/watch.js:115-122 | the next read gives the current stock, price and tag; keeps the first-seen time once set; changes event type and time only on a notification |
| Watch.NotifyPhaseKeepsState | src/watch.js:79-113 | claiming and sending leave the stored product state as it was |
| Watch.FinishedCallRecordsState | src/watch.js:29-122 | a resolved call made the decision from the stored state and stored what `setProductState` was given |
| Watch.QuietCallOnlyWrites | src/watch.js:79-122 | a call that does not notify sends nothing and resolves |
| Watch.SlackOnlyOnFirstClaim | src/watch.js:79-102 | at most one Slack message, sent exactly when the rules notify, this call claims the dedup key, a webhook is set and the post goes through |
| Watch.MailFailureIsCaught | src/watch.js:105-111 | a mail failure changes neither the result nor the store |
| Watch.ClaimFailureSkipsStateWrite | src/watch.js:79-85 | a dedup claim that fails (cooldown of 0 s or less) rejects the call with store and sinks unchanged |
| Watch.SlackFailureSkipsStateWrite | src/watch.js:85-122 | a failed Slack post after a claim rejects the call: state unchanged, dedup key live, nothing sent |
| Watch.Announce | src/watch.js:102-111 | the Slack post then the guarded mail, as `Dispatch` |
| Watch.ClaimAndAnnounce | src/watch.js:79-113 | the `if (notify)` block, as `NotifyPhase` |
| Watch.HandleProduct | src/watch.js:20-123 | `handleProduct`: result, store and sinks are those of `Handle` |
| Watch.HandleOnlyAppends | src/watch.js:20-123 | a call only adds to what was sent |
| Watch.RunHandlesTargets | src/watch.js:134-150 | a page run hands exactly the target products to `handleProduct`, one result each, and only adds to what was sent |
| Watch.NonTargetIsSkipped | src/watch.js:139-142 | a link whose product is not a target changes nothing |
| Watch.TakeNext | src/watch.js:136-145 | one link off the queue extends the run by that link |
| Watch.ProcessPage | src/watch.js:125-151 | the page is skipped exactly when it is unchanged and the caller's `isHot` is false (the scheduler passes `Watch.IsHotPage`, so an unchanged page numbered above 3 is skipped); otherwise every link is run in order, as `RunLinks` |
| Watch.RunQueue | src/watch.js:133-150 | the `shift()` loop takes the links in order and leaves the store, the sinks and the results exactly as `RunLinks` over all of them |
| Watch.IntervalMs | src/watch.js:154-165 | the hot interval for `hot`, the cold one for `cold`, and the warm one for `normal` and every other priority, in milliseconds |
| Watch.IsHotPage | src/watch.js:168-170 | pages 1-3 are hot, pages above 3 are not, and a page numbered 0 or below counts as hot too |
| Watch.UnknownPriorityIsNormal | src/watch.js:154-165 | a priority other than hot or cold gets the warm interval |
| Watch.DefaultIntervals | src/watch.js:154-165 | with default settings: 20 000 ms hot, 300 000 ms cold, 60 000 ms otherwise |
| Watch.ResolvedPages | src/watch.js:178-190 | an auto-detected collection runs pages 1..n for a detected n (none for n < 0), and 1..3 when detection gives null or 0 |
| Watch.ResolveCollections | src/watch.js:177-197 | each collection is resolved in order, keeping name, base and priority |
| Watch.PageJobs | src/watch.js:215-222 | one job per page, in page order, hot exactly for pages up to 3 |
| Watch.PassKeepsOtherNames | src/watch.js:206-227 | a pass leaves the run time of other names untouched |
| Watch.PassRunsDueCollections | src/watch.js:206-227 | a pass queues exactly the collections due at its start, stamps them with the pass time, and leaves the rest |
| Watch.StampOrKeep | src/watch.js:207-224 | after a pass, the last run of any name is what it was before or the pass time |
| Watch.StaysStamped | src/watch.js:207-224 | a collection due when the pass began ends the pass stamped with the pass time, whatever other collections share its name |
| Watch.RanCollectionWaitsItsInterval | src/watch.js:207-224 | a collection due when the pass began is due again exactly once its interval has elapsed from the pass time, also when several collections share its name |
| Watch.Scheduler.QueuePages | src/watch.js:215-222 | appends the collection's page jobs |
| Watch.Scheduler.Tick | src/watch.js:202-227 | one pass of the loop body updates `lastRunTimes` and yields the jobs, as `Pass` |
| Oneshot.BackInStockUnreachable | src/oneshot.js:88-95 | BackInStock is never chosen |
| Oneshot.PriceChangeIsSilent | src/oneshot.js:85-87 | a moved price with the tag unchanged is never announced |
| Oneshot.AnnounceExactly | src/oneshot.js:73-104 | the exact condition under which `main` announces |
| Oneshot.AgreesWithWatch | src/oneshot.js:73-104 | it differs from src/watch.js only on a moved price (silent) and a restock from 0 (StockIncreased) |
| Oneshot.LeadingName | src/oneshot.js:107 | the dedup id starts with the event name |
| Oneshot.DedupIdSeparatesEvents | src/oneshot.js:107-108 | different events never share a dedup id |
| Oneshot.StateAfterWrite | src/oneshot.js:160-167 | the next read gives current stock, price and tag, first-seen once set, and the event only when announced |
| Oneshot.NoticeIsTheDecidedEvent | src/oneshot.js:106-137 | a notice carries the decided event (never BackInStock), the shared message text and the previous stock and price |
| Oneshot.LiveKeySuppresses | src/oneshot.js:107-110 | a live dedup key means no notice and nothing sent |
| Oneshot.SendFailuresAreCaught | src/oneshot.js:139-155 | Slack and mail failures do not stop the pass or change the store |
| Oneshot.AnnounceFailuresAreCaught | src/oneshot.js:139-155 | the same for the announcement block, and the notice does not depend on delivery |
| Oneshot.Targets | src/oneshot.js:29-46 | at most one found product per link |
| Oneshot.FoundAreTargets | src/oneshot.js:36-41 | every found product is a target fetched from one of the links |
| Oneshot.TargetsAreFound | src/oneshot.js:36-41 | every link whose product is a target gives a found product |
| Oneshot.NoticesAreFew | src/oneshot.js:56-168 | at most one notice per found product, none BackInStock |
| Oneshot.CollectTargets | src/oneshot.js:29-46 | the sweep loop collects exactly `Targets` |
| Oneshot.ClaimAndSend | src/oneshot.js:106-157 | the announcement block, as `Announce` |
| Oneshot.SendNotice | src/oneshot.js:139-155 | Slack then mail, each failure caught, as `Send` |
| Oneshot.VisitOne | src/oneshot.js:57-167 | the loop body, as `VisitFound` |
| Oneshot.VisitNext | src/oneshot.js:56-168 | one loop turn extends the pass by that product |
| Oneshot.VisitEach | src/oneshot.js:56-168 | the loop over found products, stopping at a store error, as `VisitAll` |
| Oneshot.RunOnce | src/oneshot.js:25-168 | `main` is the sweep followed by the visit of the targets |
| Oneshot.StoppedStaysStopped | src/oneshot.js:56-168 | after a rejection the remaining products change nothing |
| ProductionFlow.IdentityFromUrlNotEmpty | tests/test-production-email-flow.js:30-42 | the URL fallback never gives an empty identity |
| ProductionFlow.FlowIdentityFacts | tests/test-production-email-flow.js:24-53 | it agrees with src/watch.js when there is a handle or id, and skips exactly when there is no tag, handle, id or URL |
| ProductionFlow.AgreesWithWatch | tests/test-production-email-flow.js:61-104 | it differs from src/watch.js only on an untagged first sighting and a moved price (both silent) |
| ProductionFlow.AnnouncedEventsAreNamed | tests/test-production-email-flow.js:61-119 | an announced event is never HighPriceInStock, so its message has a header |
| ProductionFlow.CleanTitleIsOneLine | tests/test-production-email-flow.js:114 | the cleaned title holds only single spaces as white space, none at either end |
| ProductionFlow.FlowMessageStartsWithHeader | tests/test-production-email-flow.js:115-129 | a message with a header starts with it and a line break |
| ProductionFlow.CollectionSegment | tests/test-production-email-flow.js:138-140 | the `/collections/` match is a non-empty segment without '/' |
| ProductionFlow.QueueKeyFacts | tests/test-production-email-flow.js:135-144 | a named collection is its own key; otherwise the URL gives 'UNKNOWN' or an upper-cased segment; no URL gives no key |
| ProductionFlow.MailPhaseKeepsStore | tests/test-production-email-flow.js:133-191 | the email block changes only the mails |
| ProductionFlow.MailPhaseOutcome | tests/test-production-email-flow.js:133-191 | `sent` exactly on the immediate and batch paths; those need mail on and a key, and the immediate path is NewHighPricePage's |
| ProductionFlow.NotifyFacts | tests/test-production-email-flow.js:129-191 | posting and mailing keep the store; a failed post throws |
| ProductionFlow.AnnounceFacts | tests/test-production-email-flow.js:106-195 | the store ends as it was or with the event's key claimed; a mail result implies a first claim |
| ProductionFlow.NeverWritesState | tests/test-production-email-flow.js:106-218 | no call changes any product's stored state |
| ProductionFlow.ClaimedPath | tests/test-production-email-flow.js:106-191 | a call that reached the email block read the state, notified and claimed the key |
| ProductionFlow.SentMeansQueued | tests/test-production-email-flow.js:146-191 | `sent` exactly for immediate and batch results, the immediate one only for NewHighPricePage |
| ProductionFlow.ImmediateMailForNewPages | tests/test-production-email-flow.js:148-162 | a new tagged page is mailed alone with subject `#<tag>在庫追加`; a mail failure changes neither result nor store |
| ProductionFlow.RepeatIsDeduplicated | tests/test-production-email-flow.js:106-195 | repeating a claimed call within the cooldown gives the `dedupe` result |
| ProductionFlow.Identify | tests/test-production-email-flow.js:24-53 | the identity lines compute `FlowIdentity` |
| ProductionFlow.FindQueueKey | tests/test-production-email-flow.js:135-144 | the queue-key lines compute `QueueKey` |
| ProductionFlow.SendMail | tests/test-production-email-flow.js:133-191 | the email block, as `MailPhase` |
| ProductionFlow.Post | tests/test-production-email-flow.js:130-191 | Slack then the email block, as `Notify` |
| ProductionFlow.Respond | tests/test-production-email-flow.js:110-195 | the dedup answer's handling, as `Claimed` |
| ProductionFlow.Claim | tests/test-production-email-flow.js:106-199 | the `if (notify)` block, as `ClaimPhase` |
| ProductionFlow.HandleProduct | tests/test-production-email-flow.js:23-219 | the replica's `handleProduct`, as `Flow` |

## Left out

**Network and external systems**
- src/collection.js is not part of this model: fetching and hashing collection pages, listing product links and `detectMaxPage` are outside it. Whether a page changed, its links and the detected page count are parameters.
- The product request of `fetchProductJsonByUrl` is a parameter, the decoded JSON or None. A request that throws and a response that is not ok both count as None. This matches how src/watch.js catches the error and src/oneshot.js maps it to null.
- The Redis connection (`getRedis`, src/redis.js:6-15), retries and pipelining are not modelled. A command fails only where Redis answers with an error: expiry not positive, an empty `HSET`, or the wrong type of key.
- nodemailer and its transport (src/email.js:6-19, 35-38) are not modelled. Whether a mail goes through is a parameter. The "settings incomplete" throw cannot occur once mail is enabled.
- The Slack webhook is not called: whether a post goes through is a parameter, and the failure text is not modelled.
- The `dotenv` file loading is not modelled: the environment is a map. `JSON.parse` of `COLLECTIONS` is a parameter.

**Timing, concurrency and output**
- The four-worker pool of `processPage` is sequential in link order. Interleavings of concurrent `handleProduct` calls are not captured.
- Sleeps, jitter and the rate budget are not modelled: src/watch.js:10-13, 147, 230-231 and src/oneshot.js:43.
- The `while (true)` of `mainLoop` is one pass, `Watch.Scheduler.Tick`. It returns the page jobs that the pass hands to `processPage` one by one; each job is one `Watch.ProcessPage` call.
- Console output is not modelled, including the final listing and the format example of src/oneshot.js:170-196.
- One clock value serves a whole page or pass. The source reads `Date.now()` and the ISO time once per `handleProduct` call, with jittered sleeps between calls. The model gives every product of a `Watch.ProcessPage`, a `Watch.RunLinks` or an `Oneshot.RunOnce` the same `nowMs` and `nowIso`. So `firstSeenAt`, `lastEventAt` and whether a dedup key is still live are all judged at one instant.
- `Date.now()` is the parameter `nowMs`. `new Date().toISOString()` is the parameter `nowIso`. src/oneshot.js:163-164 reads the clock twice; the model uses one `nowIso` for both.

**JavaScript semantics**
- Numbers are integers or NaN. A fractional, exponent, hexadecimal or infinite text counts as non-finite. Variant inventories and prices are integers.
- `toLocaleString` groups digits by commas, as the ja-JP and en-US locales do.
- `String.prototype.toUpperCase` is modelled on ASCII letters only.

**Parts of the source not modelled**
- The `new URL` branch of `buildCollectionUrl` (src/config.js:116-119) is not modelled; only the fallback is.
- `eventId` in src/watch.js:15-18 is not used by the program and is not modelled.
- The config fields the core does not read are not modelled: `redisUrl`, `targetCollectionBase`, `pages`, `rpsBudget`, jitter, `notifyTtlSec`, and the SMTP host, port, secure flag and password.
- The `main` of tests/test-production-email-flow.js is not modelled, and neither are the other tests and scripts.
- A collection whose pages are arrays of non-integers is not modelled: `Config.PagesValue.ArrayValue` holds integers.
- The replica's `catch` branches around `sendBatchEmail` (tests/test-production-email-flow.js:159-162, 179-182) cannot be reached, because `sendBatchEmail` catches its own failure. `ProductionFlow.SentMeansQueued` states this.
- `getCollectionHash` (src/redis.js:22-25) is `Redis.GetCollectionHash` and has no contract of its own. `Redis.CollectionHashLifetime` states its behaviour.

**Weaker contracts**
- Url.Pathname: accepts only `scheme://host` URLs and reads the path up to '?' or '#'. Percent-encoding, dot segments, backslashes, userinfo and IPv6 hosts are not modelled.
- EmailOpening.BodyOpens: requires a collection name without a line break, since a name holding three line breaks in a row would itself be collapsed.
- Watch.PassRunsDueCollections: requires distinct collection names. The source accepts duplicates; `Watch.Pass` models them (a later collection with a name already run in the pass is not due when its interval is positive), but the lemma does not state that case.
- Watch.ResolveCollections: requires the invariant `Config.ParseCollections` guarantees, that a collection auto-detects exactly when its pages are 'auto'.
