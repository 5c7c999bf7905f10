/**
 * One APOD record and the filter that decides which records of a response
 * become gallery tiles (displayGallery and createGalleryItem).
 */
module Media {

  /** One record of the API's JSON array, with the API's field names. */
  datatype MediaItem = MediaItem(
    date: string,
    title: string,
    explanation: string,
    url: string,
    mediaType: string)

  /**
   * A rendered gallery tile: thumbnail source and alt text, caption, formatted
   * date, description, and the record its click listener hands to openModal.
   */
  datatype Tile = Tile(
    imageSrc: string,
    imageAlt: string,
    title: string,
    dateText: string,
    description: string,
    item: MediaItem)

  /** The only test displayGallery applies: `item.media_type === 'image'`. */
  predicate IsImage(item: MediaItem) {
    item.mediaType == "image"
  }

  /** The records displayGallery turns into tiles, in response order. */
  function Images(items: seq<MediaItem>): (r: seq<MediaItem>)
    ensures |r| <= |items|
    ensures forall x :: x in r ==> x in items && IsImage(x)
  {
    if items == [] then []
    else if IsImage(items[0]) then [items[0]] + Images(items[1..])
    else Images(items[1..])
  }

  /** The positions, from `from` on, of the records that are kept, in increasing order. */
  function ImagePositions(items: seq<MediaItem>, from: nat): (r: seq<nat>)
    requires from <= |items|
    ensures forall k :: 0 <= k < |r| ==> from <= r[k] < |items|
    decreases |items| - from
  {
    if from == |items| then []
    else if IsImage(items[from]) then [from] + ImagePositions(items, from + 1)
    else ImagePositions(items, from + 1)
  }

  /** One position per kept record, and the record at each position is the kept one. */
  lemma {:induction false} ImagePositionsSelect(items: seq<MediaItem>, from: nat)
    requires from <= |items|
    ensures |ImagePositions(items, from)| == |Images(items[from..])|
    ensures forall k :: 0 <= k < |ImagePositions(items, from)| ==>
      Images(items[from..])[k] == items[ImagePositions(items, from)[k]]
    decreases |items| - from
  {
    if from < |items| {
      ImagePositionsSelect(items, from + 1);
      assert items[from..][0] == items[from];
      assert items[from..][1..] == items[from + 1..];
    }
  }

  /** The positions increase: the kept records keep their response order. */
  lemma {:induction false} ImagePositionsIncrease(items: seq<MediaItem>, from: nat)
    requires from <= |items|
    ensures forall k, l :: 0 <= k < l < |ImagePositions(items, from)| ==>
      ImagePositions(items, from)[k] < ImagePositions(items, from)[l]
    decreases |items| - from
  {
    if from < |items| {
      ImagePositionsIncrease(items, from + 1);
    }
  }

  /** A position is listed exactly when the record there is an image. */
  lemma {:induction false} ImagePositionsComplete(items: seq<MediaItem>, from: nat)
    requires from <= |items|
    ensures forall i :: from <= i < |items| ==> (IsImage(items[i]) <==> i in ImagePositions(items, from))
    decreases |items| - from
  {
    if from < |items| {
      ImagePositionsComplete(items, from + 1);
    }
  }

  /** A record is kept exactly when it is in the response and is an image. */
  lemma {:induction false} ImagesMembership(items: seq<MediaItem>, x: MediaItem)
    ensures x in Images(items) <==> x in items && IsImage(x)
  {
    if items != [] {
      ImagesMembership(items[1..], x);
      assert items == [items[0]] + items[1..];
    }
  }

  /** Filtering distributes over concatenation: the response order is kept. */
  lemma {:induction false} ImagesAppend(a: seq<MediaItem>, b: seq<MediaItem>)
    ensures Images(a + b) == Images(a) + Images(b)
  {
    if a == [] {
      assert a + b == b;
    } else {
      assert (a + b)[1..] == a[1..] + b;
      ImagesAppend(a[1..], b);
    }
  }

  /** The filter changes nothing exactly when every record is an image; so it is idempotent. */
  lemma {:induction false} ImagesIdentity(items: seq<MediaItem>)
    ensures Images(items) == items <==> forall x :: x in items ==> IsImage(x)
    ensures Images(Images(items)) == Images(items)
  {
    if items != [] {
      ImagesIdentity(items[1..]);
      if !IsImage(items[0]) {
        assert |Images(items)| <= |items[1..]| < |items|;
      }
    }
    ImagesAllKept(Images(items));
  }

  lemma {:induction false} ImagesAllKept(items: seq<MediaItem>)
    requires forall x :: x in items ==> IsImage(x)
    ensures Images(items) == items
  {
    if items != [] {
      ImagesAllKept(items[1..]);
    }
  }

  /** A response without an image record keeps nothing. */
  lemma {:induction false} ImagesNone(items: seq<MediaItem>)
    requires forall x :: x in items ==> !IsImage(x)
    ensures Images(items) == []
  {
    if items != [] {
      ImagesNone(items[1..]);
    }
  }

  /** createGalleryItem: the tile that shows `item`, its date formatted by `formatDate`. */
  function MakeTile(item: MediaItem, formatDate: string -> string): Tile {
    Tile(item.url, item.title, item.title, formatDate(item.date), item.explanation, item)
  }

  /** The tiles for `items`, one per record, in the same order. */
  function RenderTiles(items: seq<MediaItem>, formatDate: string -> string): (r: seq<Tile>)
    ensures |r| == |items|
    ensures forall k :: 0 <= k < |items| ==> r[k] == MakeTile(items[k], formatDate)
  {
    if items == [] then [] else [MakeTile(items[0], formatDate)] + RenderTiles(items[1..], formatDate)
  }

  /** One more record: its tile, if it is an image, comes after the tiles so far. */
  lemma RenderNext(done: seq<MediaItem>, item: MediaItem, formatDate: string -> string)
    ensures RenderTiles(Images(done + [item]), formatDate)
      == RenderTiles(Images(done), formatDate) + (if IsImage(item) then [MakeTile(item, formatDate)] else [])
  {
    ImagesAppend(done, [item]);
    assert Images([item]) == if IsImage(item) then [item] else [];
    var a, b := Images(done), Images([item]);
    assert RenderTiles(a + b, formatDate) == RenderTiles(a, formatDate) + RenderTiles(b, formatDate);
  }
}
