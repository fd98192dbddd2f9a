/** A comment on a listing, `struct Comment`, and its lenient initializer from
    a document's data. */
module Comments {
  import opened Values
  import Items

  datatype Comment = Comment(
    commentDate: Timestamp,
    commentedBy: string,
    itemID: string,
    itemName: string,
    sellerName: string,
    text: string)

  // The defaults are lower-case, unlike the item's, and the item id's keeps its typo.
  const DefaultCommentedBy: string := "no commentBy name"
  const DefaultItemId: string := "no itrm id"
  const DefaultItemName: string := "no item name"
  const DefaultSellerName: string := "no seller name"
  const DefaultText: string := "no text"

  /** The wire key each field is read from and the kind it must hold there;
      here every key is spelled like its field. */
  const Schema: map<string, Kind> := map[
    "commentDate" := TimestampKind,
    "commentedBy" := StringKind,
    "itemID" := StringKind,
    "itemName" := StringKind,
    "sellerName" := StringKind,
    "text" := StringKind]

  /** The comment every field of which fell back to its default; `now` is the
      clock reading converted to a timestamp, `Timestamp(date: Date())`. */
  function DefaultComment(now: Timestamp): Comment {
    Comment(now, DefaultCommentedBy, DefaultItemId, DefaultItemName, DefaultSellerName, DefaultText)
  }

  /** The well-typed record that carries exactly the fields of `c`. */
  function AsRecord(c: Comment): (d: Record)
    ensures d.Keys == Schema.Keys
    ensures forall key | key in d :: KindOf(d[key]) == Schema[key]
  {
    map[
      "commentDate" := VTimestamp(c.commentDate),
      "commentedBy" := VString(c.commentedBy),
      "itemID" := VString(c.itemID),
      "itemName" := VString(c.itemName),
      "sellerName" := VString(c.sellerName),
      "text" := VString(c.text)]
  }

  /** `Comment.init(_ dictionary:)`. It never fails: each field is the value
      under its key when that value has the field's type, and the field's
      default otherwise. */
  function Decode(d: Record, now: Timestamp): (r: Comment)
    ensures VTimestamp(r.commentDate) == Lenient(d, "commentDate", TimestampKind, VTimestamp(now))
    ensures VString(r.commentedBy) == Lenient(d, "commentedBy", StringKind, VString(DefaultCommentedBy))
    ensures VString(r.itemID) == Lenient(d, "itemID", StringKind, VString(DefaultItemId))
    ensures VString(r.itemName) == Lenient(d, "itemName", StringKind, VString(DefaultItemName))
    ensures VString(r.sellerName) == Lenient(d, "sellerName", StringKind, VString(DefaultSellerName))
    ensures VString(r.text) == Lenient(d, "text", StringKind, VString(DefaultText))
  {
    Comment(
      commentDate := AsTimestamp(Lookup(d, "commentDate")).GetOr(now),
      commentedBy := AsString(Lookup(d, "commentedBy")).GetOr(DefaultCommentedBy),
      itemID := AsString(Lookup(d, "itemID")).GetOr(DefaultItemId),
      itemName := AsString(Lookup(d, "itemName")).GetOr(DefaultItemName),
      sellerName := AsString(Lookup(d, "sellerName")).GetOr(DefaultSellerName),
      text := AsString(Lookup(d, "text")).GetOr(DefaultText))
  }

  /** The whole decoder as one table, key by key. */
  lemma DecodeBySchema(d: Record, now: Timestamp, key: string)
    requires key in Schema
    ensures AsRecord(Decode(d, now))[key] == Lenient(d, key, Schema[key], AsRecord(DefaultComment(now))[key])
  {
  }

  /** Decoding the record of a comment gives the comment back. */
  lemma RoundTrip(c: Comment, now: Timestamp)
    ensures Decode(AsRecord(c), now) == c
  {
  }

  /** The empty dictionary decodes too, to the all-defaults comment. */
  lemma EmptyRecord(now: Timestamp)
    ensures Decode(map[], now) == DefaultComment(now)
    ensures Decode(map[], now).itemID == "no itrm id"
  {
  }

  /** For every field, a value of the wrong type under its key gives the same
      comment as a missing key. */
  lemma WrongTypeIsAbsent(d: Record, key: string, v: Value, now: Timestamp)
    requires key in Schema && KindOf(v) != Schema[key]
    ensures Decode(d[key := v], now) == Decode(d - {key}, now)
  {
  }

  /** Only the six keys read matter: two records that agree on them decode alike. */
  lemma DependsOnlyOnReadKeys(d1: Record, d2: Record, now: Timestamp)
    requires forall key | key in Schema :: Lookup(d1, key) == Lookup(d2, key)
    ensures Decode(d1, now) == Decode(d2, now)
  {
  }

  /** Each field depends on its own key alone: changing the value under one
      read key leaves every other field as it was. Fields are named by their
      wire keys: `AsRecord(r)[k]` is the field of the comment `r` read from key `k`. */
  lemma FieldIndependence(d: Record, key: string, v: Value, now: Timestamp)
    requires key in Schema
    ensures forall other | other in Schema && other != key ::
      AsRecord(Decode(d[key := v], now))[other] == AsRecord(Decode(d, now))[other]
  {
    forall other | other in Schema && other != key
      ensures AsRecord(Decode(d[key := v], now))[other] == AsRecord(Decode(d, now))[other]
    {
      DecodeBySchema(d[key := v], now, other);
      DecodeBySchema(d, now, other);
    }
  }

  /** Decoding the same record under two clock readings can differ only in
      `commentDate`, and not at all when the record holds a `Timestamp` there. */
  lemma ClockOnlyMovesDate(d: Record, t1: Timestamp, t2: Timestamp)
    ensures Decode(d, t2) == Decode(d, t1).(commentDate := Decode(d, t2).commentDate)
    ensures "commentDate" in d && d["commentDate"].VTimestamp? ==> Decode(d, t1) == Decode(d, t2)
    ensures !("commentDate" in d && d["commentDate"].VTimestamp?) ==> Decode(d, t2).commentDate == t2
  {
  }

  /** The comment and the item decoders read three keys in common. On each,
      both give the same string exactly when the record holds a string there:
      their defaults differ (`no item name` against `No item name`, and so on). */
  lemma SharedKeysAgreeWithItem(d: Record, now: Timestamp, itemNow: Date)
    ensures Decode(d, now).itemName == Items.Decode(d, itemNow).itemName
        <==> "itemName" in d && d["itemName"].VString?
    ensures Decode(d, now).itemID == Items.Decode(d, itemNow).itemId
        <==> "itemID" in d && d["itemID"].VString?
    ensures Decode(d, now).sellerName == Items.Decode(d, itemNow).sellerName
        <==> "sellerName" in d && d["sellerName"].VString?
  {
  }
}
