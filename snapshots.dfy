/** Decoding a whole query snapshot, `snapshot.documents.map { T($0.data()) }`. */
module Snapshots {
  import opened Values
  import Items
  import Comments

  /** Maps a decoder over the documents, in order. The initializer reads the
      clock at most once per document, and only when the date field falls back
      (the right side of `??` is evaluated lazily), so each document comes with
      its own reading, which is unused when the document carries its date. */
  function DecodeAll<C, T>(docs: seq<Record>, clocks: seq<C>, decode: (Record, C) -> T): (r: seq<T>)
    requires |clocks| == |docs|
    ensures |r| == |docs|
    ensures forall i | 0 <= i < |docs| :: r[i] == decode(docs[i], clocks[i])
  {
    if docs == [] then [] else [decode(docs[0], clocks[0])] + DecodeAll(docs[1..], clocks[1..], decode)
  }

  /** The items of the feed: one item per document, in the documents' order. */
  function ItemFeed(docs: seq<Record>, clocks: seq<Date>): (items: seq<Items.Item>)
    requires |clocks| == |docs|
    ensures |items| == |docs|
    ensures forall i | 0 <= i < |docs| :: items[i] == Items.Decode(docs[i], clocks[i])
  {
    DecodeAll(docs, clocks, Items.Decode)
  }

  /** The comments of a listing: one comment per document, in order. */
  function CommentThread(docs: seq<Record>, clocks: seq<Timestamp>): (comments: seq<Comments.Comment>)
    requires |clocks| == |docs|
    ensures |comments| == |docs|
    ensures forall i | 0 <= i < |docs| :: comments[i] == Comments.Decode(docs[i], clocks[i])
  {
    DecodeAll(docs, clocks, Comments.Decode)
  }

  /** Decoded with the same clock readings for the documents of `S1`, a feed
      snapshot `S2 = S1 + more` shows the items of `S1` first, unchanged. The app
      decodes every snapshot afresh and reads the clock again, so see
      `FeedRedecoded` for what survives a new reading. */
  lemma FeedExtends(s1: seq<Record>, c1: seq<Date>, more: seq<Record>, c2: seq<Date>)
    requires |c1| == |s1| && |c2| == |more|
    ensures ItemFeed(s1 + more, c1 + c2) == ItemFeed(s1, c1) + ItemFeed(more, c2)
  {
    var whole, parts := ItemFeed(s1 + more, c1 + c2), ItemFeed(s1, c1) + ItemFeed(more, c2);
    forall i | 0 <= i < |whole| ensures whole[i] == parts[i] {
      if i < |s1| {
        assert (s1 + more)[i] == s1[i] && (c1 + c2)[i] == c1[i];
      } else {
        assert (s1 + more)[i] == more[i - |s1|] && (c1 + c2)[i] == c2[i - |s1|];
      }
    }
  }

  /** Under the same clock readings, a record that is not a well-formed item
      never spoils its neighbours: replacing one document changes at most the
      item at its own position. */
  lemma ReplaceOneDocument(docs: seq<Record>, clocks: seq<Date>, k: nat, d: Record)
    requires |clocks| == |docs| && k < |docs|
    ensures ItemFeed(docs[k := d], clocks) == ItemFeed(docs, clocks)[k := Items.Decode(d, clocks[k])]
  {
  }

  /** What the app actually shows when a later snapshot `S1 + more` arrives: each
      document of `S1` is decoded again with a fresh clock reading. Its item is the
      earlier one with at most `listedDate` changed, and exactly the earlier one
      when the document stores a `Date` under `listedDate`. */
  lemma FeedRedecoded(s1: seq<Record>, c1: seq<Date>, more: seq<Record>, c1Again: seq<Date>, c2: seq<Date>)
    requires |c1| == |s1| && |c1Again| == |s1| && |c2| == |more|
    ensures var before, after := ItemFeed(s1, c1), ItemFeed(s1 + more, c1Again + c2);
      |after| == |s1| + |more| &&
      (forall i | 0 <= i < |s1| :: after[i] == before[i].(listedDate := after[i].listedDate)) &&
      (forall i | 0 <= i < |s1| && "listedDate" in s1[i] && s1[i]["listedDate"].VDate? :: after[i] == before[i])
  {
    var before, after := ItemFeed(s1, c1), ItemFeed(s1 + more, c1Again + c2);
    forall i | 0 <= i < |s1| ensures after[i] == before[i].(listedDate := after[i].listedDate) {
      assert (s1 + more)[i] == s1[i] && (c1Again + c2)[i] == c1Again[i];
      Items.ClockOnlyMovesDate(s1[i], c1[i], c1Again[i]);
    }
    forall i | 0 <= i < |s1| && "listedDate" in s1[i] && s1[i]["listedDate"].VDate? ensures after[i] == before[i] {
      assert (s1 + more)[i] == s1[i] && (c1Again + c2)[i] == c1Again[i];
      Items.ClockOnlyMovesDate(s1[i], c1[i], c1Again[i]);
    }
  }
}
