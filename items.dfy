/** A listing for sale, `struct Item`, and its lenient initializer from a
    document's data. */
module Items {
  import opened Values

  datatype Item = Item(
    itemName: string,
    price: Double,
    itemId: string,
    listedDate: Date,
    sellerName: string,
    sellerId: string,
    categoryName: string)

  const DefaultItemName: string := "No item name"
  const DefaultPrice: Double := Zero
  const DefaultItemId: string := "No Item ID"
  const DefaultSellerName: string := "No seller name"
  const DefaultSellerId: string := "No seller ID"
  const DefaultCategoryName: string := "No category name"

  /** The wire key each field is read from and the kind it must hold there.
      Two keys differ in case from their fields: `itemID` and `sellerID`. */
  const Schema: map<string, Kind> := map[
    "itemName" := StringKind,
    "price" := DoubleKind,
    "itemID" := StringKind,
    "listedDate" := DateKind,
    "sellerName" := StringKind,
    "sellerID" := StringKind,
    "categoryName" := StringKind]

  /** The item every field of which fell back to its default; `now` is the
      clock reading `Date()` taken while decoding. */
  function DefaultItem(now: Date): Item {
    Item(DefaultItemName, DefaultPrice, DefaultItemId, now,
         DefaultSellerName, DefaultSellerId, DefaultCategoryName)
  }

  /** The well-typed record that carries exactly the fields of `i`, each under
      its wire key. */
  function AsRecord(i: Item): (d: Record)
    ensures d.Keys == Schema.Keys
    ensures forall key | key in d :: KindOf(d[key]) == Schema[key]
  {
    map[
      "itemName" := VString(i.itemName),
      "price" := VDouble(i.price),
      "itemID" := VString(i.itemId),
      "listedDate" := VDate(i.listedDate),
      "sellerName" := VString(i.sellerName),
      "sellerID" := VString(i.sellerId),
      "categoryName" := VString(i.categoryName)]
  }

  /** `Item.init(_ dictionary:)`. It never fails: each field is the value under
      its key when that value has the field's type, and the field's default
      otherwise, whether the key is missing or holds a value of another type. */
  function Decode(d: Record, now: Date): (r: Item)
    ensures VString(r.itemName) == Lenient(d, "itemName", StringKind, VString(DefaultItemName))
    ensures VDouble(r.price) == Lenient(d, "price", DoubleKind, VDouble(DefaultPrice))
    ensures VString(r.itemId) == Lenient(d, "itemID", StringKind, VString(DefaultItemId))
    ensures VDate(r.listedDate) == Lenient(d, "listedDate", DateKind, VDate(now))
    ensures VString(r.sellerName) == Lenient(d, "sellerName", StringKind, VString(DefaultSellerName))
    ensures VString(r.sellerId) == Lenient(d, "sellerID", StringKind, VString(DefaultSellerId))
    ensures VString(r.categoryName) == Lenient(d, "categoryName", StringKind, VString(DefaultCategoryName))
  {
    Item(
      itemName := AsString(Lookup(d, "itemName")).GetOr(DefaultItemName),
      price := AsDouble(Lookup(d, "price")).GetOr(DefaultPrice),
      itemId := AsString(Lookup(d, "itemID")).GetOr(DefaultItemId),
      listedDate := AsDate(Lookup(d, "listedDate")).GetOr(now),
      sellerName := AsString(Lookup(d, "sellerName")).GetOr(DefaultSellerName),
      sellerId := AsString(Lookup(d, "sellerID")).GetOr(DefaultSellerId),
      categoryName := AsString(Lookup(d, "categoryName")).GetOr(DefaultCategoryName))
  }

  /** The whole decoder as one table: under every wire key, the decoded item
      holds what the reading rule gives for that key's kind and default. */
  lemma DecodeBySchema(d: Record, now: Date, key: string)
    requires key in Schema
    ensures AsRecord(Decode(d, now))[key] == Lenient(d, key, Schema[key], AsRecord(DefaultItem(now))[key])
  {
  }

  /** Decoding the record of an item gives the item back, whatever the clock says. */
  lemma RoundTrip(i: Item, now: Date)
    ensures Decode(AsRecord(i), now) == i
  {
  }

  /** The empty dictionary decodes too, to the all-defaults item. */
  lemma EmptyRecord(now: Date)
    ensures Decode(map[], now) == DefaultItem(now)
  {
  }

  /** For every field, a value of the wrong type under its key gives the same
      item as a missing key. */
  lemma WrongTypeIsAbsent(d: Record, key: string, v: Value, now: Date)
    requires key in Schema && KindOf(v) != Schema[key]
    ensures Decode(d[key := v], now) == Decode(d - {key}, now)
  {
  }

  /** Only the seven keys read matter: two records that agree on them decode alike. */
  lemma DependsOnlyOnReadKeys(d1: Record, d2: Record, now: Date)
    requires forall key | key in Schema :: Lookup(d1, key) == Lookup(d2, key)
    ensures Decode(d1, now) == Decode(d2, now)
  {
  }

  /** Adding, replacing or removing a key that is not read changes nothing. */
  lemma UnreadKeyIgnored(d: Record, key: string, v: Value, now: Date)
    requires key !in Schema
    ensures Decode(d[key := v], now) == Decode(d, now) == Decode(d - {key}, now)
  {
  }

  /** Each field depends on its own key alone: changing the value under one
      read key leaves every other field as it was. Fields are named by their
      wire keys: `AsRecord(r)[k]` is the field of the item `r` read from key `k`. */
  lemma FieldIndependence(d: Record, key: string, v: Value, now: Date)
    requires key in Schema
    ensures forall other | other in Schema && other != key ::
      AsRecord(Decode(d[key := v], now))[other] == AsRecord(Decode(d, now))[other]
  {
    forall other | other in Schema && other != key
      ensures AsRecord(Decode(d[key := v], now))[other] == AsRecord(Decode(d, now))[other]
    {
      DecodeBySchema(d[key := v], now, other);
      DecodeBySchema(d, now, other);
    }
  }

  /** Decoding the same record under two clock readings can differ only in
      `listedDate`, and not at all when the record holds a `Date` there. */
  lemma ClockOnlyMovesDate(d: Record, t1: Date, t2: Date)
    ensures Decode(d, t2) == Decode(d, t1).(listedDate := Decode(d, t2).listedDate)
    ensures "listedDate" in d && d["listedDate"].VDate? ==> Decode(d, t1) == Decode(d, t2)
    ensures !("listedDate" in d && d["listedDate"].VDate?) ==> Decode(d, t2).listedDate == t2
  {
  }

  /** The wire keys are case-sensitive: an id stored under the field names
      `itemId` or `sellerId` is not found, while `itemID` and `sellerID` are. */
  lemma WireKeysAreCaseSensitive(id: string, seller: string, now: Date)
    ensures Decode(map["itemId" := VString(id), "sellerId" := VString(seller)], now).itemId == DefaultItemId
    ensures Decode(map["itemId" := VString(id), "sellerId" := VString(seller)], now).sellerId == DefaultSellerId
    ensures Decode(map["itemID" := VString(id), "sellerID" := VString(seller)], now).itemId == id
    ensures Decode(map["itemID" := VString(id), "sellerID" := VString(seller)], now).sellerId == seller
  {
  }

  /** The binary64 value 10.0: sign 0, biased exponent 0x402 (2^3), fraction 0x4_0000_0000_0000 (1.25). */
  const Ten: Double := Double(0x4024_0000_0000_0000)

  /** A record `{itemID: "a", sellerID: "u1", price: 10.0}` with no name
      decodes to an item named "No item name" that keeps the rest. */
  lemma MissingNameScenario(now: Date)
    ensures var r := Decode(map["itemID" := VString("a"), "sellerID" := VString("u1"), "price" := VDouble(Ten)], now);
      r.itemName == "No item name" && r.itemId == "a" && r.sellerId == "u1" && r.price == Ten
      && r.listedDate == now && r.sellerName == "No seller name" && r.categoryName == "No category name"
  {
  }

  /** The data `DatabaseService.createItem` writes for a new listing: the name,
      price, category and seller as given, the new document's id, the signed-in
      user's uid and the listing time converted to a `Timestamp`. */
  function NewItemRecord(itemName: string, price: Double, documentId: string, listed: Timestamp,
                         displayName: string, uid: string, categoryName: string): (d: Record)
    ensures d.Keys == Schema.Keys
    ensures forall key | key in d && key != "listedDate" :: KindOf(d[key]) == Schema[key]
    ensures KindOf(d["listedDate"]) == TimestampKind != Schema["listedDate"]
  {
    map[
      "itemName" := VString(itemName),
      "price" := VDouble(price),
      "itemID" := VString(documentId),
      "listedDate" := VTimestamp(listed),
      "sellerName" := VString(displayName),
      "sellerID" := VString(uid),
      "categoryName" := VString(categoryName)]
  }

  /** Reading back what createItem wrote recovers every field except the
      listing date: the record holds a `Timestamp` where the decoder expects a
      `Date`, so `listedDate` is the decode-time clock, not the stored time. */
  lemma CreatedRecordDecode(itemName: string, price: Double, documentId: string, listed: Timestamp,
                            displayName: string, uid: string, categoryName: string, now: Date)
    ensures Decode(NewItemRecord(itemName, price, documentId, listed, displayName, uid, categoryName), now)
         == Item(itemName, price, documentId, now, displayName, uid, categoryName)
  {
  }
}
