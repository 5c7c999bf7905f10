/**
 * What the gallery container shows, and what displayGallery and
 * fetchSpaceImages leave in it, as functions of the response.
 */
module Gallery {
  import opened Wrappers
  import opened Media

  /** The gallery is one placeholder or a run of tiles. */
  datatype GalleryView =
    | Loading
    | Error(message: string)
    | NoImages
    | Tiles(tiles: seq<Tile>)

  /** The message fetchSpaceImages hands to showError. */
  const LoadFailedMessage: string := "Failed to load space images. Please try again."

  /**
   * The value `response.json()` resolves to, as displayGallery sees it: a falsy
   * value (`null`, `false`, `0`, `""`), an array of records, or some other truthy
   * value, which has no `forEach` and may or may not have a `length` of 0.
   */
  datatype Json =
    | Falsy
    | List(items: seq<MediaItem>)
    | NonList(lengthIsZero: bool)

  /**
   * What the network delivers for the request: a failure before any reply, or
   * a reply with its status and its body, `None` when the body is not JSON.
   */
  datatype Response =
    | NetworkFailure
    | Reply(status: int, body: Option<Json>)

  /** `response.ok`: a status in the range 200-299. */
  predicate IsOk(status: int) {
    200 <= status <= 299
  }

  /** displayGallery throws: `forEach` is called on a value that has none. */
  predicate DisplayThrows(images: Json) {
    images.NonList? && !images.lengthIsZero
  }

  /** The gallery displayGallery leaves, whether or not it then throws. */
  function Displayed(images: Json, formatDate: string -> string): GalleryView {
    match images
    case Falsy => NoImages
    case NonList(lengthIsZero) => if lengthIsZero then NoImages else Tiles([])
    case List(items) =>
      if items == [] then NoImages else Tiles(RenderTiles(Images(items), formatDate))
  }

  /**
   * The views fetchSpaceImages writes into the gallery, in order: the loading
   * placeholder, then displayGallery's result, then the error placeholder if
   * anything failed.
   */
  function FetchTrace(response: Response, formatDate: string -> string): (trace: seq<GalleryView>)
    ensures 2 <= |trace| <= 3 && trace[0] == Loading
    ensures trace[|trace| - 1] != Loading
  {
    match response
    case NetworkFailure => [Loading, Error(LoadFailedMessage)]
    case Reply(status, body) =>
      if !IsOk(status) || body.None? then [Loading, Error(LoadFailedMessage)]
      else if DisplayThrows(body.value) then [Loading, Displayed(body.value, formatDate), Error(LoadFailedMessage)]
      else [Loading, Displayed(body.value, formatDate)]
  }

  /** The gallery fetchSpaceImages leaves: the last view of its trace. */
  function FetchOutcome(response: Response, formatDate: string -> string): GalleryView {
    var trace := FetchTrace(response, formatDate);
    trace[|trace| - 1]
  }

  /** An absent or empty response leaves the "no images" placeholder and no tile. */
  lemma DisplayedEmpty(images: Json, formatDate: string -> string)
    requires images == Falsy || images == List([])
    ensures Displayed(images, formatDate) == NoImages
    ensures !Displayed(images, formatDate).Tiles?
  {
  }

  /**
   * A non-empty list leaves exactly one tile per image record, in response
   * order, each showing that record; videos and other types get no tile.
   */
  lemma DisplayedTiles(items: seq<MediaItem>, formatDate: string -> string)
    requires items != []
    ensures Displayed(List(items), formatDate).Tiles?
    ensures var tiles := Displayed(List(items), formatDate).tiles;
      && |tiles| == |Images(items)|
      && (forall k :: 0 <= k < |tiles| ==> tiles[k] == MakeTile(Images(items)[k], formatDate))
      && (forall k :: 0 <= k < |tiles| ==> tiles[k].item in items && IsImage(tiles[k].item))
      && (forall k :: 0 <= k < |tiles| ==> tiles[k].item.mediaType != "video")
  {
    var tiles := Displayed(List(items), formatDate).tiles;
    forall k | 0 <= k < |tiles|
      ensures tiles[k].item in items && IsImage(tiles[k].item)
    {
      assert tiles[k].item == Images(items)[k];
      assert Images(items)[k] in Images(items);
    }
  }

  /** A non-empty response with no image leaves an empty gallery, not the placeholder. */
  lemma DisplayedNoImageRecords(items: seq<MediaItem>, formatDate: string -> string)
    requires items != [] && forall x :: x in items ==> !IsImage(x)
    ensures Displayed(List(items), formatDate) == Tiles([])
  {
    ImagesNone(items);
  }

  /**
   * After fetchSpaceImages the gallery is never loading: a failed request, a
   * bad status, an unreadable body or a throwing displayGallery leave the error
   * placeholder, and a readable body leaves what displayGallery made of it.
   */
  lemma FetchSettles(response: Response, formatDate: string -> string)
    ensures FetchOutcome(response, formatDate) != Loading
    ensures FetchOutcome(response, formatDate) == Error(LoadFailedMessage)
      <==> (|| response.NetworkFailure?
            || !IsOk(response.status)
            || response.body.None?
            || DisplayThrows(response.body.value))
    ensures response.Reply? && IsOk(response.status) && response.body.Some?
      && !DisplayThrows(response.body.value)
      ==> FetchOutcome(response, formatDate) == Displayed(response.body.value, formatDate)
  {
  }

  /** displayGallery never leaves an error placeholder of its own. */
  lemma DisplayedIsNotError(images: Json, formatDate: string -> string)
    ensures !Displayed(images, formatDate).Error?
    ensures Displayed(images, formatDate) != Loading
  {
  }
}
