/**
 * The page controller: the date inputs, the gallery container, the modal and
 * the body style as fields, the page's functions as methods, and its event
 * listeners as the methods named On....
 */
module Explorer {
  import opened Media
  import opened Dates
  import opened Request
  import opened Gallery
  import opened Modal

  /** The verdict of the button's two checks on the input values. */
  datatype RangeCheck = Accepted | MissingDate | InvertedRange

  const MissingDateAlert: string := "Please select both start and end dates."
  const InvertedRangeAlert: string := "Start date cannot be after end date."

  /** The button handler's checks, in the order it makes them. */
  function CheckRange(startDate: string, endDate: string): (r: RangeCheck)
    ensures startDate == "" || endDate == "" ==> r == MissingDate
    ensures r == Accepted ==> startDate != "" && endDate != ""
  {
    if startDate == "" || endDate == "" then MissingDate
    else if StartAfterEnd(startDate, endDate) then InvertedRange
    else Accepted
  }

  /**
   * On two picked dates, the range is accepted exactly when the start is not
   * after the end in calendar order, which is string order on the values.
   */
  lemma CheckRangeOrder(startDate: string, endDate: string)
    requires IsIsoDate(startDate) && IsIsoDate(endDate)
    ensures CheckRange(startDate, endDate) == Accepted <==> !Before(Parse(endDate), Parse(startDate))
    ensures CheckRange(startDate, endDate) == Accepted <==> !LexLess(endDate, startDate)
    ensures CheckRange(startDate, endDate) == InvertedRange <==> LexLess(endDate, startDate)
  {
    StartAfterEndIsStringOrder(startDate, endDate);
  }

  /** A non-empty value that is not a date compares false, so it passes the order check. */
  lemma CheckRangeUnparsable(startDate: string, endDate: string)
    requires startDate != "" && endDate != ""
    requires !IsIsoDate(startDate) || !IsIsoDate(endDate)
    ensures CheckRange(startDate, endDate) == Accepted
  {
  }

  function AlertText(check: RangeCheck): string {
    match check
    case MissingDate => MissingDateAlert
    case InvertedRange => InvertedRangeAlert
    case Accepted => ""
  }

  class Controller {
    /** toLocaleDateString('en-US', { year, month: 'long', day }) on the record's date. */
    const formatDate: string -> string

    var startValue: string
    var endValue: string
    var gallery: GalleryView
    /** Every view written into the gallery by a render call, oldest first. */
    ghost var shown: seq<GalleryView>
    /** The URLs fetched, oldest first. */
    var requests: seq<string>
    /** The alert messages shown, oldest first. */
    var alerts: seq<string>

    var modalDisplay: string
    var bodyOverflow: string
    var modalImageSrc: string
    var modalImageAlt: string
    var modalTitle: string
    var modalDate: string
    var modalExplanation: string

    function ModalState(): ModalView
      reads this
    {
      ModalView(modalDisplay, bodyOverflow, modalImageSrc, modalImageAlt, modalTitle, modalDate, modalExplanation)
    }

    /** Between events: no fetch is left loading, and scrolling is locked exactly while the modal is open. */
    ghost predicate Valid()
      reads this
    {
      gallery != Loading && Consistent(ModalState())
    }

    /**
     * The page after loading: the date inputs hold what the date-range helper
     * put there, the gallery holds the page's own markup, and no inline style
     * is set on the modal or the body.
     */
    constructor (formatDate: string -> string, startValue: string, endValue: string, initialGallery: GalleryView)
      requires initialGallery != Loading
      ensures Valid()
      ensures this.formatDate == formatDate
      ensures this.startValue == startValue && this.endValue == endValue
      ensures gallery == initialGallery && shown == []
      ensures requests == [] && alerts == []
      ensures modalDisplay == "" && bodyOverflow == ""
    {
      this.formatDate := formatDate;
      this.startValue := startValue;
      this.endValue := endValue;
      gallery := initialGallery;
      shown := [];
      requests := [];
      alerts := [];
      modalDisplay := "";
      bodyOverflow := "";
      modalImageSrc := "";
      modalImageAlt := "";
      modalTitle := "";
      modalDate := "";
      modalExplanation := "";
    }

    /** The user picks dates in the two inputs. */
    method ChooseDates(startDate: string, endDate: string)
      modifies this`startValue, this`endValue
      ensures startValue == startDate && endValue == endDate
    {
      startValue := startDate;
      endValue := endDate;
    }

    method ShowLoading()
      modifies this`gallery, this`shown
      ensures gallery == Loading
      ensures shown == old(shown) + [Loading]
    {
      gallery := Loading;
      shown := shown + [gallery];
    }

    method ShowError(message: string)
      modifies this`gallery, this`shown
      ensures gallery == Error(message)
      ensures shown == old(shown) + [Error(message)]
    {
      gallery := Error(message);
      shown := shown + [gallery];
    }

    /**
     * Clears the gallery, then shows the "no images" placeholder for an absent
     * or empty response, or appends one tile per image record in response
     * order. Reports whether it threw on a value that has no `forEach`.
     */
    method DisplayGallery(images: Json) returns (thrown: bool)
      modifies this`gallery, this`shown
      ensures gallery == Displayed(images, formatDate)
      ensures thrown == DisplayThrows(images)
      ensures shown == old(shown) + [gallery]
    {
      gallery := Tiles([]);
      thrown := false;
      match images {
        case Falsy =>
          gallery := NoImages;
        case NonList(lengthIsZero) =>
          if lengthIsZero {
            gallery := NoImages;
          } else {
            thrown := true;
          }
        case List(items) =>
          if |items| == 0 {
            gallery := NoImages;
          } else {
            var i := 0;
            while i < |items|
              invariant 0 <= i <= |items|
              invariant gallery == Tiles(RenderTiles(Images(items[..i]), formatDate))
              invariant shown == old(shown)
            {
              var item := items[i];
              RenderNext(items[..i], item, formatDate);
              assert items[..i + 1] == items[..i] + [item];
              if IsImage(item) {
                gallery := Tiles(gallery.tiles + [MakeTile(item, formatDate)]);
              }
              i := i + 1;
            }
            assert items[..i] == items;
          }
      }
      shown := shown + [gallery];
    }

    /**
     * Shows the loading placeholder, requests the range, and ends with the
     * rendered gallery or, on any failure, the error placeholder.
     */
    method FetchSpaceImages(startDate: string, endDate: string, response: Response)
      modifies this`gallery, this`shown, this`requests
      ensures requests == old(requests) + [RequestUrl(startDate, endDate, ApiKey)]
      ensures shown == old(shown) + FetchTrace(response, formatDate)
      ensures gallery == FetchOutcome(response, formatDate)
    {
      ShowLoading();
      var url := RequestUrl(startDate, endDate, ApiKey);
      requests := requests + [url];
      match response {
        case NetworkFailure =>
          ShowError(LoadFailedMessage);
        case Reply(status, body) =>
          if !IsOk(status) || body.None? {
            ShowError(LoadFailedMessage);
          } else {
            var thrown := DisplayGallery(body.value);
            if thrown {
              ShowError(LoadFailedMessage);
            }
          }
      }
    }

    /**
     * The "Get Space Images" button: alert and stop when a date is missing or
     * the start is after the end; otherwise fetch the range exactly once.
     */
    method OnGetImagesClick(response: Response) returns (check: RangeCheck)
      requires Valid()
      modifies this`gallery, this`shown, this`requests, this`alerts
      ensures Valid()
      ensures check == CheckRange(startValue, endValue)
      ensures check == Accepted ==>
        && requests == old(requests) + [RequestUrl(startValue, endValue, ApiKey)]
        && shown == old(shown) + FetchTrace(response, formatDate)
        && gallery == FetchOutcome(response, formatDate)
        && alerts == old(alerts)
      ensures check != Accepted ==>
        && requests == old(requests)
        && gallery == old(gallery) && shown == old(shown)
        && alerts == old(alerts) + [AlertText(check)]
    {
      check := CheckRange(startValue, endValue);
      if check != Accepted {
        alerts := alerts + [AlertText(check)];
        return;
      }
      FetchSpaceImages(startValue, endValue, response);
      FetchSettles(response, formatDate);
    }

    /** DOMContentLoaded: fetch the default range when both inputs hold a value, without the order check. */
    method OnPageLoaded(response: Response) returns (fetched: bool)
      requires Valid()
      modifies this`gallery, this`shown, this`requests
      ensures Valid()
      ensures fetched == (startValue != "" && endValue != "")
      ensures fetched ==>
        && requests == old(requests) + [RequestUrl(startValue, endValue, ApiKey)]
        && shown == old(shown) + FetchTrace(response, formatDate)
        && gallery == FetchOutcome(response, formatDate)
      ensures !fetched ==> requests == old(requests) && gallery == old(gallery) && shown == old(shown)
    {
      fetched := startValue != "" && endValue != "";
      if fetched {
        FetchSpaceImages(startValue, endValue, response);
        FetchSettles(response, formatDate);
      }
    }

    method OpenModal(item: MediaItem)
      modifies this`modalDisplay, this`bodyOverflow, this`modalImageSrc, this`modalImageAlt
      modifies this`modalTitle, this`modalDate, this`modalExplanation
      ensures ModalState() == Opened(old(ModalState()), item, formatDate)
    {
      var formattedDate := formatDate(item.date);
      modalImageSrc := item.url;
      modalImageAlt := item.title;
      modalTitle := item.title;
      modalDate := formattedDate;
      modalExplanation := item.explanation;
      modalDisplay := "block";
      bodyOverflow := "hidden";
    }

    method CloseModal()
      modifies this`modalDisplay, this`bodyOverflow
      ensures ModalState() == Closed(old(ModalState()))
    {
      modalDisplay := "none";
      bodyOverflow := "auto";
    }

    /** A click on the k-th tile opens the modal on the record the tile was made from. */
    method OnTileClick(k: nat)
      requires Valid()
      requires gallery.Tiles? && k < |gallery.tiles|
      modifies this`modalDisplay, this`bodyOverflow, this`modalImageSrc, this`modalImageAlt
      modifies this`modalTitle, this`modalDate, this`modalExplanation
      ensures Valid()
      ensures ModalState() == Step(old(ModalState()), TileClick(gallery.tiles[k].item), formatDate)
    {
      OpenModal(gallery.tiles[k].item);
    }

    method OnCloseButtonClick()
      requires Valid()
      modifies this`modalDisplay, this`bodyOverflow
      ensures Valid()
      ensures ModalState() == Step(old(ModalState()), CloseButtonClick, formatDate)
    {
      CloseModal();
    }

    /** A click on the modal closes it only when it lands on the modal element itself. */
    method OnModalClick(target: ClickTarget)
      requires Valid()
      modifies this`modalDisplay, this`bodyOverflow
      ensures Valid()
      ensures ModalState() == Step(old(ModalState()), ModalClick(target), formatDate)
    {
      if target == ModalElement {
        CloseModal();
      }
    }

    /** A key press closes the modal only when it is Escape and the modal is shown. */
    method OnKeyDown(key: string)
      requires Valid()
      modifies this`modalDisplay, this`bodyOverflow
      ensures Valid()
      ensures ModalState() == Step(old(ModalState()), KeyDown(key), formatDate)
    {
      if key == "Escape" && modalDisplay == "block" {
        CloseModal();
      }
    }
  }
}
