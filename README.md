# Firebase-Demo record decoders

A model of the two lenient decoders of the Firebase-Demo marketplace app.
They turn the loosely typed data of a Firestore document (`[String: Any]`) into
the app's typed records:

- `Item.init(_ dictionary:)` turns a listing document into an `Item` with seven fields.
- `Comment.init(_ dictionary:)` turns a comment document into a `Comment` with six fields.

Each field is read as `dictionary[key] as? T ?? default`. So a decoder never
fails, and a key that holds a value of the wrong type counts as missing. The
model also covers the snapshot decoding the feed and detail screens perform:
`snapshot.documents.map { Item($0.data()) }` and the same with `Comment`.
Finally, it covers the data `DatabaseService.createItem` writes for a new
listing, which is the decoder's natural partner. That data is the dictionary on
line 27 of `Firebase-Demo/Firebase Services/DatabaseService.swift`, and
CreateItemViewController calls createItem on line 91.

Modules:

- `Values`: the dynamic values a document holds, Swift's `as?` casts and `??`, and
  `Lenient`, the "stored value when present with the right type, default otherwise"
  rule both decoders are specified by.
- `Items`: `struct Item`, its wire schema, `Decode` and its properties, and the record createItem writes.
- `Comments`: `struct Comment`, its wire schema, `Decode` and its properties, and how it
  compares with the item decoder on the three keys both read.
- `Snapshots`: decoding a sequence of documents, in order.

Values the app only passes through are opaque here:

- A `Double` is its 64-bit pattern, and `0.00` is the all-zero pattern (+0.0).
- A `Date` wraps a `Double`.
- A Firebase `Timestamp` is seconds and nanoseconds.

The clock is a parameter. `Item` takes the reading `Date()` as `now`.
`Comment` takes the converted reading `Timestamp(date: Date())`. The right side of
Swift's `??` is evaluated only when needed. So the source reads the clock at most
once per document, and only when the date field falls back. The model passes one
reading per document, and the decoder uses it only in that case.

A behaviour worth knowing: createItem stores `listedDate` as a `Timestamp`, but
`Item.init` reads it `as? Date`. Reading back a listing that createItem wrote
therefore gives every field as written, except `listedDate`, which becomes the
decode-time clock (`Items.CreatedRecordDecode`). The model keeps the code as written.
Whether Firestore hands such a field back as a `Timestamp` is behaviour of its SDK,
and the SDK is not part of this model.

ItemDetailController and SellerItemsController read `item.imageURL`, but the
`Item` in `Item.swift` has no such field and its decoder reads no `imageURL` key.
The model follows `Item.swift`, so an `imageURL` entry is ignored like any other unread key.

## Model

| member | source | states |
|---|---|---|
| `Items.Decode` | Firebase-Demo/Models/Item.swift:22-30 | Total. Each of the seven fields is the value under its wire key (`itemName`, `price`, `itemID`, `listedDate`, `sellerName`, `sellerID`, `categoryName`) when that value has the field's type. Otherwise it is the field's default: `"No item name"`, `0.00`, `"No Item ID"`, the decode-time `now`, `"No seller name"`, `"No seller ID"`, `"No category name"`. |
| `Items.AsRecord` | Firebase-Demo/Models/Item.swift:11-19 | No Swift code turns an `Item` into a dictionary. This is the decoder's inverse, defined for `RoundTrip`: it puts the seven fields declared here under their wire keys, each holding a value of its field's type. |
| `Items.DecodeBySchema` | Firebase-Demo/Models/Item.swift:23-29 | The decoder as one table: under every read key, the decoded item holds what the reading rule gives for that key's type and default. |
| `Items.RoundTrip` | Firebase-Demo/Models/Item.swift:22-30 | Decoding the well-typed record of any item gives that item back, whatever the clock reads. |
| `Items.EmptyRecord` | Firebase-Demo/Models/Item.swift:22-30 | The empty dictionary decodes, to the item made of all the defaults. |
| `Items.WrongTypeIsAbsent` | Firebase-Demo/Models/Item.swift:23-29 | For every read key, a value of the wrong type gives the same item as removing the key. |
| `Items.DependsOnlyOnReadKeys` | Firebase-Demo/Models/Item.swift:22-30 | Two records that agree on the seven read keys decode to the same item. |
| `Items.UnreadKeyIgnored` | Firebase-Demo/Models/Item.swift:22-30 | Adding, replacing or removing any other key leaves the item unchanged. |
| `Items.FieldIndependence` | Firebase-Demo/Models/Item.swift:23-29 | Changing the value under one read key leaves every other field unchanged. |
| `Items.WireKeysAreCaseSensitive` | Firebase-Demo/Models/Item.swift:25-28 | Ids stored under `itemId`/`sellerId` are not found, so the defaults apply. Under `itemID`/`sellerID` they pass through. |
| `Items.MissingNameScenario` | Firebase-Demo/Models/Item.swift:22-30 | `{itemID: "a", sellerID: "u1", price: 10.0}` decodes to name `"No item name"`, id `"a"`, seller id `"u1"`, price 10.0, and defaults elsewhere. |
| `Items.ClockOnlyMovesDate` | Firebase-Demo/Models/Item.swift:26 | Two clock readings decode the same record to items that differ at most in `listedDate`. They are equal when the record stores a `Date` there. Otherwise `listedDate` is the reading. |
| `Items.NewItemRecord` | Firebase-Demo/Controllers/CreateItemViewController.swift:91 | The record createItem writes has exactly the seven keys the decoder reads. All hold the decoder's types except `listedDate`, which holds a `Timestamp`. |
| `Items.CreatedRecordDecode` | Firebase-Demo/Controllers/CreateItemViewController.swift:91 | Decoding what createItem wrote recovers name, price, document id, seller name, seller uid and category. The listing date becomes the decode-time clock. |
| `Comments.Decode` | Firebase-Demo/Models/Comment.swift:23-30 | Total. Each of the six fields is the value under its key (`commentDate`, `commentedBy`, `itemID`, `itemName`, `sellerName`, `text`) when that value has the field's type. Otherwise it is the default: a timestamp of `now`, `"no commentBy name"`, `"no itrm id"`, `"no item name"`, `"no seller name"`, `"no text"`. |
| `Comments.AsRecord` | Firebase-Demo/Models/Comment.swift:12-19 | No Swift code turns a `Comment` into a dictionary. This is the decoder's inverse, defined for `RoundTrip`: it puts the six fields declared here under their keys, each holding a value of its field's type. |
| `Comments.DecodeBySchema` | Firebase-Demo/Models/Comment.swift:24-29 | The decoder as one table, key by key, against the reading rule. |
| `Comments.RoundTrip` | Firebase-Demo/Models/Comment.swift:23-30 | Decoding the well-typed record of any comment gives that comment back. |
| `Comments.EmptyRecord` | Firebase-Demo/Models/Comment.swift:23-30 | The empty dictionary decodes, to the all-defaults comment, whose item id is the literal `"no itrm id"`. |
| `Comments.WrongTypeIsAbsent` | Firebase-Demo/Models/Comment.swift:24-29 | For every read key, a value of the wrong type gives the same comment as removing the key. |
| `Comments.DependsOnlyOnReadKeys` | Firebase-Demo/Models/Comment.swift:23-30 | Two records that agree on the six read keys decode to the same comment. |
| `Comments.FieldIndependence` | Firebase-Demo/Models/Comment.swift:24-29 | Changing the value under one read key leaves every other field unchanged. |
| `Comments.ClockOnlyMovesDate` | Firebase-Demo/Models/Comment.swift:24 | Two clock readings decode the same record to comments that differ at most in `commentDate`. They are equal when the record stores a `Timestamp` there. Otherwise `commentDate` is the reading. |
| `Comments.SharedKeysAgreeWithItem` | Firebase-Demo/Models/Comment.swift:26-28 | On `itemName`, `itemID` and `sellerName`, the comment and item decoders give the same string if and only if the record holds a string there. Their defaults differ. |
| `Snapshots.DecodeAll` | Firebase-Demo/Controllers/ItemFeedViewController.swift:41 | Mapping a decoder over documents gives one result per document, in order, and the i-th is the i-th document decoded. |
| `Snapshots.ItemFeed` | Firebase-Demo/Controllers/ItemFeedViewController.swift:41 | The feed has as many items as the snapshot has documents. The i-th item is `Item(docs[i])`. |
| `Snapshots.CommentThread` | Firebase-Demo/Controllers/ItemDetailController.swift:76 | The thread has as many comments as the snapshot has documents. The i-th is `Comment(docs[i])`. |
| `Snapshots.FeedExtends` | Firebase-Demo/Controllers/ItemFeedViewController.swift:41 | With the same clock readings for the documents of `S1`, a snapshot `S1 + more` shows the items of `S1` first, unchanged, then those of `more`. The app decodes each snapshot afresh, so `FeedRedecoded` states what survives a new reading. |
| `Snapshots.ReplaceOneDocument` | Firebase-Demo/Controllers/ItemFeedViewController.swift:41 | Under the same clock readings, replacing one document, even with a malformed one, changes only the item at that position. |
| `Snapshots.FeedRedecoded` | Firebase-Demo/Controllers/ItemFeedViewController.swift:39-42 | Each push decodes every document again with a fresh clock reading. In a later snapshot `S1 + more`, each item of `S1` is the earlier item with at most `listedDate` changed. It is the identical item when its document stores a `Date` under `listedDate`. |

## Left out

- The view controllers, the header view and the item cell: UIKit lifecycle, alerts, keyboard handling, image picking and loading, layout and `%.2f` price formatting.
- Snapshot listener registration and removal, and the asynchronous completion handlers: Firestore SDK I/O driven by callbacks.
- The field checks before posting an item in CreateItemViewController: they rest on `Double(String)` parsing and on the signed-in user, both foreign calls.
- createItem's guard on the signed-in user and its completion result. Only the data it writes is modelled.
- Floating-point, `Date` and `Timestamp` semantics: these values are only passed through. The conversion `Timestamp(date:)` is folded into the clock parameter of the comment decoder.
- Swift's `NSNumber` bridging: an integer-valued number or a boolean stored in Firestore may also cast `as? Double`. A boolean is a `CFBoolean`, and it casts to 1.0 for `true` and 0.0 for `false`. So `{"price": true}` gives price 1.0 in the app, but 0.00 in the model. The model counts only a `Double` value as a `Double`, and integers and booleans fall under `VOther`.
- The clock itself: each decoder takes its reading as a parameter.
