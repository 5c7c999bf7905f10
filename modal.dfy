/**
 * The detail modal as the DOM shows it: the modal's inline `display`, the
 * page body's inline `overflow`, and the text and image it shows; and the
 * events that change it.
 */
module Modal {
  import opened Media

  datatype ModalView = ModalView(
    display: string,
    overflow: string,
    imageSrc: string,
    imageAlt: string,
    title: string,
    dateText: string,
    explanation: string)

  /** The modal is open when its inline display is `block`. */
  predicate IsOpen(m: ModalView) {
    m.display == "block"
  }

  /** Background scrolling is suppressed when the body's overflow is `hidden`. */
  predicate ScrollLocked(m: ModalView) {
    m.overflow == "hidden"
  }

  /** The page's own invariant: the background is locked exactly while the modal is open. */
  predicate Consistent(m: ModalView) {
    ScrollLocked(m) <==> IsOpen(m)
  }

  /** openModal(item): show the record and lock the background. */
  function Opened(m: ModalView, item: MediaItem, formatDate: string -> string): ModalView {
    ModalView("block", "hidden", item.url, item.title, item.title, formatDate(item.date), item.explanation)
  }

  /** closeModal(): hide the modal and restore scrolling; the contents stay. */
  function Closed(m: ModalView): ModalView {
    m.(display := "none", overflow := "auto")
  }

  /** What a click on the modal element lands on. */
  datatype ClickTarget =
    | ModalElement   // the modal's own background, around the content panel
    | InsideContent  // anything inside the content panel

  /** The page events that reach the modal. */
  datatype Event =
    | TileClick(item: MediaItem)
    | CloseButtonClick
    | ModalClick(target: ClickTarget)
    | KeyDown(key: string)

  /** The listeners: a tile opens, the close button closes, the background and Escape close only when they apply. */
  function Step(m: ModalView, e: Event, formatDate: string -> string): ModalView {
    match e
    case TileClick(item) => Opened(m, item, formatDate)
    case CloseButtonClick => Closed(m)
    case ModalClick(target) => if target == ModalElement then Closed(m) else m
    case KeyDown(key) => if key == "Escape" && IsOpen(m) then Closed(m) else m
  }

  /** The modal after a run of events, in order. */
  function Run(m: ModalView, events: seq<Event>, formatDate: string -> string): ModalView
    decreases |events|
  {
    if events == [] then m else Run(Step(m, events[0], formatDate), events[1..], formatDate)
  }

  /** Opening shows the record's fields, opens the modal and locks the background. */
  lemma OpenShowsItem(m: ModalView, item: MediaItem, formatDate: string -> string)
    ensures var r := Opened(m, item, formatDate);
      && IsOpen(r) && ScrollLocked(r) && Consistent(r)
      && r.title == item.title && r.explanation == item.explanation
      && r.imageSrc == item.url && r.imageAlt == item.title
      && r.dateText == formatDate(item.date)
  {
  }

  /** Closing leaves the modal closed with scrolling restored, and closing twice is closing once. */
  lemma CloseIdempotent(m: ModalView)
    ensures !IsOpen(Closed(m)) && Closed(m).overflow == "auto" && Consistent(Closed(m))
    ensures Closed(Closed(m)) == Closed(m)
  {
  }

  /** Escape closes an open modal and changes nothing otherwise; so does any other key. */
  lemma EscapeOnlyWhenOpen(m: ModalView, key: string, formatDate: string -> string)
    ensures Step(m, KeyDown(key), formatDate) == (if key == "Escape" && IsOpen(m) then Closed(m) else m)
    ensures !IsOpen(m) ==> Step(m, KeyDown(key), formatDate) == m
  {
  }

  /** A click inside the content panel changes nothing. */
  lemma InsideClickIgnored(m: ModalView, formatDate: string -> string)
    ensures Step(m, ModalClick(InsideContent), formatDate) == m
  {
  }

  /** Every listener keeps the page's invariant. */
  lemma StepConsistent(m: ModalView, e: Event, formatDate: string -> string)
    requires Consistent(m)
    ensures Consistent(Step(m, e, formatDate))
  {
  }

  /**
   * Over any run of events the background is locked exactly while the modal
   * is open: once the last dismissal has happened, scrolling is back.
   */
  lemma {:induction false} RunConsistent(m: ModalView, events: seq<Event>, formatDate: string -> string)
    requires Consistent(m)
    ensures Consistent(Run(m, events, formatDate))
    ensures !IsOpen(Run(m, events, formatDate)) ==> !ScrollLocked(Run(m, events, formatDate))
    decreases |events|
  {
    if events != [] {
      StepConsistent(m, events[0], formatDate);
      RunConsistent(Step(m, events[0], formatDate), events[1..], formatDate);
    }
  }

  /** Open, close and open again: the second opening shows only the second record. */
  lemma ReopenShowsLatest(m: ModalView, first: MediaItem, second: MediaItem, formatDate: string -> string)
    ensures Run(m, [TileClick(first), CloseButtonClick, TileClick(second)], formatDate)
      == Opened(m, second, formatDate)
    ensures Run(m, [TileClick(first), CloseButtonClick], formatDate).overflow == "auto"
  {
    var m1 := Opened(m, first, formatDate);
    var m2 := Closed(m1);
    var es := [TileClick(first), CloseButtonClick, TileClick(second)];
    assert es[1..] == [CloseButtonClick, TileClick(second)] && es[1..][1..] == [TileClick(second)];
    assert Run(m, es, formatDate) == Run(m1, es[1..], formatDate);
    assert Run(m1, es[1..], formatDate) == Run(m2, [TileClick(second)], formatDate);
    var fs := [TileClick(first), CloseButtonClick];
    assert fs[1..] == [CloseButtonClick] && fs[1..][1..] == [];
    assert Run(m, fs, formatDate) == Run(m1, fs[1..], formatDate) == m2;
  }
}
