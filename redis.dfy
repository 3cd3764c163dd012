/**
 * src/redis.js over a model of the key-value store: one keyspace whose keys
 * hold either a text value with an optional expiry time or a hash of
 * fields. The store's clock is a parameter (`nowMs`). Every command that
 * Redis would answer with an error gives `Failed`.
 */
module Redis {
  import opened Wrappers
  import JsText
  import opened JsNumbers

  // ---------------------------------------------------------------- keys

  /** The `EX` of `setCollectionHash`: page hashes are kept for an hour. */
  const CollectionHashTtlSec: int := 3600

  const CollectionHashPrefix: string := "collection_hash:"
  const ProductStatePrefix: string := "product_state:"
  const DedupePrefix: string := "dedupe:event:"

  function CollectionHashKey(url: string): string { CollectionHashPrefix + url }
  function ProductStateKey(identity: string): string { ProductStatePrefix + identity }
  function DedupeKey(eventId: string): string { DedupePrefix + eventId }

  /** The three key families never share a key. */
  lemma KeyFamiliesDisjoint(url: string, identity: string, eventId: string)
    ensures CollectionHashKey(url) != ProductStateKey(identity)
    ensures ProductStateKey(identity) != DedupeKey(eventId)
    ensures CollectionHashKey(url) != DedupeKey(eventId)
  {
    assert CollectionHashKey(url)[0] == 'c';
    assert ProductStateKey(identity)[0] == 'p';
    assert DedupeKey(eventId)[0] == 'd';
  }

  /** Within a family, distinct names give distinct keys. */
  lemma KeysInjective(a: string, b: string)
    ensures CollectionHashKey(a) == CollectionHashKey(b) ==> a == b
    ensures ProductStateKey(a) == ProductStateKey(b) ==> a == b
    ensures DedupeKey(a) == DedupeKey(b) ==> a == b
  {
    assert CollectionHashKey(a)[|CollectionHashPrefix|..] == a && CollectionHashKey(b)[|CollectionHashPrefix|..] == b;
    assert ProductStateKey(a)[|ProductStatePrefix|..] == a && ProductStateKey(b)[|ProductStatePrefix|..] == b;
    assert DedupeKey(a)[|DedupePrefix|..] == a && DedupeKey(b)[|DedupePrefix|..] == b;
  }

  // ---------------------------------------------------------------- the store

  datatype Value =
    | Text(text: string, expiresAtMs: Option<int>)
    | Hash(fields: map<string, string>)

  type Db = map<string, Value>

  datatype Reply<T> = Ok(value: T) | Failed

  /** A command's reply and the store it leaves. */
  datatype Outcome<T> = Outcome(reply: Reply<T>, db: Db)

  /** The key exists and, if it has an expiry time, has not reached it. */
  predicate Live(db: Db, key: string, nowMs: int) {
    key in db && (db[key].Hash? || db[key].expiresAtMs.None? || nowMs < db[key].expiresAtMs.value)
  }

  /** `GET key`. */
  function Get(db: Db, key: string, nowMs: int): (r: Reply<Option<string>>)
    ensures r == Ok(None) <==> !Live(db, key, nowMs)
  {
    if !Live(db, key, nowMs) then Ok(None)
    else match db[key]
      case Text(t, _) => Ok(Some(t))
      case Hash(_) => Failed
  }

  /** `SET key value EX ttlSec`: `Failed` unless the expiry is a positive number of seconds. */
  function SetEx(db: Db, key: string, value: string, ttlSec: int, nowMs: int): (o: Outcome<()>)
    ensures o.reply.Ok? <==> ttlSec > 0
    ensures o.reply.Ok? ==> o.db.Keys == db.Keys + {key}
                            && forall k :: k in db && k != key ==> o.db[k] == db[k]
  {
    if ttlSec <= 0 then Outcome(Failed, db)
    else Outcome(Ok(()), db[key := Text(value, Some(nowMs + ttlSec * 1000))])
  }

  /** `SET key value NX EX ttlSec`: `Ok(true)` when it set the key, `Ok(false)` when the key was live. */
  function SetNxEx(db: Db, key: string, value: string, ttlSec: int, nowMs: int): (o: Outcome<bool>)
    ensures o.reply.Failed? <==> ttlSec <= 0
    ensures o.reply.Ok? ==> (o.reply.value <==> !Live(db, key, nowMs))
    ensures o.reply != Ok(true) ==> o.db == db
    ensures o.reply == Ok(true) ==> Live(o.db, key, nowMs)
  {
    if ttlSec <= 0 then Outcome(Failed, db)
    else if Live(db, key, nowMs) then Outcome(Ok(false), db)
    else Outcome(Ok(true), db[key := Text(value, Some(nowMs + ttlSec * 1000))])
  }

  /** `HGETALL key`: no fields for a missing key, `Failed` for a text key. */
  function HGetAll(db: Db, key: string, nowMs: int): (r: Reply<map<string, string>>)
    ensures !Live(db, key, nowMs) ==> r == Ok(map[])
  {
    if !Live(db, key, nowMs) then Ok(map[])
    else match db[key]
      case Hash(f) => Ok(f)
      case Text(_, _) => Failed
  }

  /** `HSET key payload`: merges the payload into the hash; with no fields it is an error. */
  function HSet(db: Db, key: string, payload: map<string, string>, nowMs: int): (o: Outcome<()>)
    ensures o.reply.Ok? <==> payload != map[] && HGetAll(db, key, nowMs).Ok?
    ensures o.reply.Ok? ==> o.db == db[key := Hash(HGetAll(db, key, nowMs).value + payload)]
    ensures o.reply.Failed? ==> o.db == db
  {
    match HGetAll(db, key, nowMs)
    case Failed => Outcome(Failed, db)
    case Ok(fields) =>
      if payload == map[] then Outcome(Failed, db)
      else Outcome(Ok(()), db[key := Hash(fields + payload)])
  }

  // ---------------------------------------------------------------- product state

  /** What `getProductState` returns; numeric fields read back as JavaScript numbers. */
  datatype ProductState = ProductState(
    lastTotalStock: Option<Num>,
    lastEventType: Option<string>,
    lastEventAt: Option<string>,
    firstSeenAt: Option<string>,
    lastPriceYen: Option<Num>,
    lastHashNumber: Option<string>)

  /** `data.name ? Number(data.name) : null`. */
  function NumField(data: map<string, string>, name: string): (r: Option<Num>)
    ensures r.None? <==> name !in data || data[name] == ""
  {
    if name in data && data[name] != "" then Some(FromText(data[name])) else None
  }

  /** `data.name || null`. */
  function TextField(data: map<string, string>, name: string): (r: Option<string>)
    ensures r.None? <==> name !in data || data[name] == ""
    ensures r.Some? ==> r.value == data[name]
  {
    if name in data && data[name] != "" then Some(data[name]) else None
  }

  /** The decoding half of `getProductState`: null for a hash with no fields. */
  function DecodeState(data: map<string, string>): (r: Option<ProductState>)
    ensures r.None? <==> data == map[]
  {
    if data == map[] then None
    else Some(ProductState(
      NumField(data, "lastTotalStock"), TextField(data, "lastEventType"), TextField(data, "lastEventAt"),
      TextField(data, "firstSeenAt"), NumField(data, "lastPriceYen"), TextField(data, "lastHashNumber")))
  }

  /** `getProductState(identity)`. */
  function GetProductState(db: Db, identity: string, nowMs: int): Reply<Option<ProductState>> {
    match HGetAll(db, ProductStateKey(identity), nowMs)
    case Failed => Failed
    case Ok(data) => Ok(DecodeState(data))
  }

  /** A property of the object passed to `setProductState`: left out, `null`, or a value. */
  datatype Field<T> = Undefined | Null | Val(value: T)

  datatype StateUpdate = StateUpdate(
    lastTotalStock: Field<int>,
    lastEventType: Field<string>,
    lastEventAt: Field<string>,
    firstSeenAt: Field<string>,
    lastPriceYen: Field<int>,
    lastHashNumber: Field<string>)

  /** `String(state.lastTotalStock)`: `null` prints as "null". */
  function StockText(f: Field<int>): Option<string> {
    match f
    case Undefined => None
    case Null => Some("null")
    case Val(n) => Some(JsText.IntToDecimal(n))
  }

  /** `String(state.lastPriceYen ?? '')`. */
  function PriceText(f: Field<int>): Option<string> {
    match f
    case Undefined => None
    case Null => Some("")
    case Val(n) => Some(JsText.IntToDecimal(n))
  }

  /** `state.name ?? ''`. */
  function NullableText(f: Field<string>): Option<string> {
    match f
    case Undefined => None
    case Null => Some("")
    case Val(t) => Some(t)
  }

  /** `payload` with `name` set to `v` when `v` is present. */
  function With(payload: map<string, string>, name: string, v: Option<string>): map<string, string> {
    if v.Some? then payload[name := v.value] else payload
  }

  /** The payload `setProductState` sends: one field per property that is not undefined. */
  function Payload(u: StateUpdate): map<string, string> {
    var p1 := With(map[], "lastTotalStock", StockText(u.lastTotalStock));
    var p2 := With(p1, "lastEventType", NullableText(u.lastEventType));
    var p3 := With(p2, "lastEventAt", NullableText(u.lastEventAt));
    var p4 := With(p3, "firstSeenAt", NullableText(u.firstSeenAt));
    var p5 := With(p4, "lastPriceYen", PriceText(u.lastPriceYen));
    With(p5, "lastHashNumber", NullableText(u.lastHashNumber))
  }

  // ---- reference semantics of a write followed by a read

  function AfterStock(prev: Option<Num>, f: Field<int>): Option<Num> {
    match f
    case Undefined => prev
    case Null => Some(NaN)
    case Val(n) => Some(Int(n))
  }

  function AfterPrice(prev: Option<Num>, f: Field<int>): Option<Num> {
    match f
    case Undefined => prev
    case Null => None
    case Val(n) => Some(Int(n))
  }

  function AfterText(prev: Option<string>, f: Field<string>): Option<string> {
    match f
    case Undefined => prev
    case Null => None
    case Val(t) => if t == "" then None else Some(t)
  }

  /**
   * The state a read returns after `setProductState(u)` over `prev`: written
   * numbers come back exactly (0 included), `null` stock comes back as NaN,
   * empty texts come back as null, and left-out fields keep their old value.
   */
  function Applied(prev: Option<ProductState>, u: StateUpdate): ProductState {
    var p := prev.GetOr(ProductState(None, None, None, None, None, None));
    ProductState(
      AfterStock(p.lastTotalStock, u.lastTotalStock), AfterText(p.lastEventType, u.lastEventType),
      AfterText(p.lastEventAt, u.lastEventAt), AfterText(p.firstSeenAt, u.firstSeenAt),
      AfterPrice(p.lastPriceYen, u.lastPriceYen), AfterText(p.lastHashNumber, u.lastHashNumber))
  }

  predicate AllUndefined(u: StateUpdate) {
    u.lastTotalStock.Undefined? && u.lastEventType.Undefined? && u.lastEventAt.Undefined?
    && u.firstSeenAt.Undefined? && u.lastPriceYen.Undefined? && u.lastHashNumber.Undefined?
  }

  /** The payload has no fields exactly when every property was left out. */
  lemma PayloadEmpty(u: StateUpdate)
    ensures Payload(u) == map[] <==> AllUndefined(u)
  {
    if !AllUndefined(u) {
      assert "lastTotalStock" in Payload(u) || "lastEventType" in Payload(u) || "lastEventAt" in Payload(u)
          || "firstSeenAt" in Payload(u) || "lastPriceYen" in Payload(u) || "lastHashNumber" in Payload(u);
    }
  }

  /** Which fields the payload holds, and their texts. */
  lemma PayloadFields(u: StateUpdate)
    ensures var p := Payload(u);
      && ("lastTotalStock" in p <==> !u.lastTotalStock.Undefined?)
      && ("lastTotalStock" in p ==> p["lastTotalStock"] == StockText(u.lastTotalStock).value)
      && ("lastEventType" in p <==> !u.lastEventType.Undefined?)
      && ("lastEventType" in p ==> p["lastEventType"] == NullableText(u.lastEventType).value)
      && ("lastEventAt" in p <==> !u.lastEventAt.Undefined?)
      && ("lastEventAt" in p ==> p["lastEventAt"] == NullableText(u.lastEventAt).value)
      && ("firstSeenAt" in p <==> !u.firstSeenAt.Undefined?)
      && ("firstSeenAt" in p ==> p["firstSeenAt"] == NullableText(u.firstSeenAt).value)
      && ("lastPriceYen" in p <==> !u.lastPriceYen.Undefined?)
      && ("lastPriceYen" in p ==> p["lastPriceYen"] == PriceText(u.lastPriceYen).value)
      && ("lastHashNumber" in p <==> !u.lastHashNumber.Undefined?)
      && ("lastHashNumber" in p ==> p["lastHashNumber"] == NullableText(u.lastHashNumber).value)
  {
    FieldNamesDistinct();
  }

  /** The six field names of a stored state are different texts. */
  lemma FieldNamesDistinct()
    ensures var names := ["lastTotalStock", "lastEventType", "lastEventAt", "firstSeenAt", "lastPriceYen", "lastHashNumber"];
            forall i, j :: 0 <= i < j < |names| ==> names[i] != names[j]
  {
    var names := ["lastTotalStock", "lastEventType", "lastEventAt", "firstSeenAt", "lastPriceYen", "lastHashNumber"];
    assert names[0][4] == 'T' && names[5][4] == 'H';
    assert names[2][0] == 'l' && names[3][0] == 'f';
  }

  /** The stock field read back after a write. */
  lemma StockAfterWrite(base: map<string, string>, payload: map<string, string>, f: Field<int>)
    requires ("lastTotalStock" in payload <==> !f.Undefined?)
    requires "lastTotalStock" in payload ==> payload["lastTotalStock"] == StockText(f).value
    ensures NumField(base + payload, "lastTotalStock") == AfterStock(NumField(base, "lastTotalStock"), f)
  {
    var data := base + payload;
    match f {
      case Val(n) =>
        assert data["lastTotalStock"] == JsNumbers.Text(Int(n)) != "";
        TextRoundTrip(Int(n));
      case Null =>
        assert data["lastTotalStock"] == "null";
        NullTextIsNaN();
      case Undefined =>
    }
  }

  /** The price field read back after a write. */
  lemma PriceAfterWrite(base: map<string, string>, payload: map<string, string>, f: Field<int>)
    requires ("lastPriceYen" in payload <==> !f.Undefined?)
    requires "lastPriceYen" in payload ==> payload["lastPriceYen"] == PriceText(f).value
    ensures NumField(base + payload, "lastPriceYen") == AfterPrice(NumField(base, "lastPriceYen"), f)
  {
    var data := base + payload;
    match f {
      case Val(n) =>
        assert data["lastPriceYen"] == JsNumbers.Text(Int(n)) != "";
        TextRoundTrip(Int(n));
      case Null =>
      case Undefined =>
    }
  }

  /** A text field read back after a write. */
  lemma TextAfterWrite(base: map<string, string>, payload: map<string, string>, name: string, f: Field<string>)
    requires (name in payload <==> !f.Undefined?)
    requires name in payload ==> payload[name] == NullableText(f).value
    ensures TextField(base + payload, name) == AfterText(TextField(base, name), f)
  {
  }

  /**
   * Round trip of `setProductState` and `getProductState`: after a write the
   * store accepted, the read returns `Applied(previous read, u)`.
   */
  lemma WriteThenRead(db: Db, identity: string, u: StateUpdate, nowMs: int)
    requires HSet(db, ProductStateKey(identity), Payload(u), nowMs).reply.Ok?
    ensures var db' := HSet(db, ProductStateKey(identity), Payload(u), nowMs).db;
            GetProductState(db', identity, nowMs)
              == Ok(Some(Applied(GetProductState(db, identity, nowMs).value, u)))
  {
    var key := ProductStateKey(identity);
    var base := HGetAll(db, key, nowMs).value;
    var payload := Payload(u);
    var data := base + payload;
    assert HGetAll(HSet(db, key, payload, nowMs).db, key, nowMs) == Ok(data);
    PayloadFields(u);
    StockAfterWrite(base, payload, u.lastTotalStock);
    PriceAfterWrite(base, payload, u.lastPriceYen);
    TextAfterWrite(base, payload, "lastEventType", u.lastEventType);
    TextAfterWrite(base, payload, "lastEventAt", u.lastEventAt);
    TextAfterWrite(base, payload, "firstSeenAt", u.firstSeenAt);
    TextAfterWrite(base, payload, "lastHashNumber", u.lastHashNumber);
    var prev := DecodeState(base);
    var p := prev.GetOr(ProductState(None, None, None, None, None, None));
    assert p.lastTotalStock == NumField(base, "lastTotalStock") && p.lastPriceYen == NumField(base, "lastPriceYen");
    assert p.lastEventType == TextField(base, "lastEventType") && p.lastEventAt == TextField(base, "lastEventAt");
    assert p.firstSeenAt == TextField(base, "firstSeenAt") && p.lastHashNumber == TextField(base, "lastHashNumber");
    assert data != map[];
  }

  /** A write fails only when it has nothing to write or the key holds a text value. */
  lemma WriteFailsOnlyWhenEmpty(db: Db, identity: string, u: StateUpdate, nowMs: int)
    ensures HSet(db, ProductStateKey(identity), Payload(u), nowMs).reply.Failed?
            <==> AllUndefined(u) || GetProductState(db, identity, nowMs).Failed?
  {
    PayloadEmpty(u);
  }

  /**
   * `dedupeCheckAndSet`: the first call claims the key exactly when it was not
   * live; after a claim, every call within `ttlSec` seconds answers false and
   * changes nothing, and the first call at or after the expiry claims it again.
   */
  lemma DedupeWindow(db: Db, eventId: string, ttlSec: int, nowMs: int, laterMs: int)
    requires ttlSec > 0 && nowMs <= laterMs
    ensures var o := SetNxEx(db, DedupeKey(eventId), "1", ttlSec, nowMs);
            (o.reply == Ok(true) <==> !Live(db, DedupeKey(eventId), nowMs))
            && (o.reply == Ok(true) && laterMs < nowMs + ttlSec * 1000 ==>
                  SetNxEx(o.db, DedupeKey(eventId), "1", ttlSec, laterMs) == Outcome(Ok(false), o.db))
            && (o.reply == Ok(true) && laterMs >= nowMs + ttlSec * 1000 ==>
                  SetNxEx(o.db, DedupeKey(eventId), "1", ttlSec, laterMs).reply == Ok(true))
  {
  }

  /** Claiming a dedup key leaves every product's state as it reads. */
  lemma ClaimKeepsState(db: Db, eventId: string, ttlSec: int, nowMs: int, identity: string, atMs: int)
    ensures GetProductState(SetNxEx(db, DedupeKey(eventId), "1", ttlSec, nowMs).db, identity, atMs)
            == GetProductState(db, identity, atMs)
  {
    KeyFamiliesDisjoint("", identity, eventId);
  }

  /** A page hash written at `nowMs` reads back for an hour and is gone afterwards. */
  lemma CollectionHashLifetime(db: Db, url: string, hash: string, nowMs: int, laterMs: int)
    requires nowMs <= laterMs
    ensures var db' := SetEx(db, CollectionHashKey(url), hash, CollectionHashTtlSec, nowMs).db;
            GetCollectionHash(db', url, laterMs)
              == if laterMs < nowMs + 3600000 then Ok(Some(hash)) else Ok(None)
  {
  }

  class Store {
    var db: Db

    constructor(initial: Db)
      ensures db == initial
    {
      db := initial;
    }

    /** `setProductState(identity, u)`: builds the payload field by field and merges it in. */
    method SetProductState(identity: string, u: StateUpdate, nowMs: int) returns (r: Reply<()>)
      modifies this
      ensures var o := HSet(old(db), ProductStateKey(identity), Payload(u), nowMs);
              r == o.reply && db == o.db
    {
      var payload: map<string, string> := map[];
      if !u.lastTotalStock.Undefined? { payload := payload["lastTotalStock" := StockText(u.lastTotalStock).value]; }
      if !u.lastEventType.Undefined? { payload := payload["lastEventType" := NullableText(u.lastEventType).value]; }
      if !u.lastEventAt.Undefined? { payload := payload["lastEventAt" := NullableText(u.lastEventAt).value]; }
      if !u.firstSeenAt.Undefined? { payload := payload["firstSeenAt" := NullableText(u.firstSeenAt).value]; }
      if !u.lastPriceYen.Undefined? { payload := payload["lastPriceYen" := PriceText(u.lastPriceYen).value]; }
      if !u.lastHashNumber.Undefined? { payload := payload["lastHashNumber" := NullableText(u.lastHashNumber).value]; }
      var o := HSet(db, ProductStateKey(identity), payload, nowMs);
      r := o.reply;
      db := o.db;
    }

    /** `dedupeCheckAndSet(eventId, ttlSec)`: true exactly when this call claimed the key. */
    method DedupeCheckAndSet(eventId: string, ttlSec: int, nowMs: int) returns (r: Reply<bool>)
      modifies this
      ensures var o := SetNxEx(old(db), DedupeKey(eventId), "1", ttlSec, nowMs);
              r == o.reply && db == o.db
    {
      var o := SetNxEx(db, DedupeKey(eventId), "1", ttlSec, nowMs);
      r := o.reply;
      db := o.db;
    }

    /** `setCollectionHash(url, hash)`: kept for `CollectionHashTtlSec` seconds. */
    method SetCollectionHash(url: string, hash: string, nowMs: int)
      modifies this
      ensures db == old(db)[CollectionHashKey(url) := Text(hash, Some(nowMs + CollectionHashTtlSec * 1000))]
    {
      db := SetEx(db, CollectionHashKey(url), hash, CollectionHashTtlSec, nowMs).db;
    }
  }

  /** `getCollectionHash(url)`. */
  function GetCollectionHash(db: Db, url: string, nowMs: int): Reply<Option<string>> {
    Get(db, CollectionHashKey(url), nowMs)
  }
}
