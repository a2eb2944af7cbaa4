/**
 * The page controller of app.js: the persisted card slot, the four UI
 * globals, the two modals and the rendered grid, with the event handlers
 * that change them.
 */
module Controller {
  import opened Wrappers
  import opened Store
  import opened Text
  import opened Categories
  import opened Render
  import opened Barcode

  /** The colour the add form starts with. */
  const DefaultColor: string := "#6C63FF"

  /** What openDetail leaves on screen. */
  datatype DetailOutcome =
    | NotFound          // no stored card has the id: nothing happens
    | UnknownCategory   // the category has no CATEGORIES entry: the lookup throws before the modal opens
    | Shown(storeName: string, barcodeNumber: string, categoryText: string, barcode: BarcodeImage)

  lemma AppendKeepsIds(cards: seq<Card>, card: Card, id: string)
    ensures HasId(cards, id) ==> HasId(cards + [card], id)
  {
    if HasId(cards, id) {
      var c :| c in cards && c.id == id;
      assert c in cards + [card];
    }
  }

  class App {
    /** localStorage['klantenkaarten']: None while nothing was ever saved. */
    var slot: Option<seq<Card>>
    var selectedColor: string
    var selectedCategory: string
    var activeFilter: string
    var currentDetailId: Option<string>
    var addModalActive: bool
    var detailModalActive: bool
    /** What the cards grid and the empty-state element currently show. */
    var grid: RenderPlan

    /** getCards: an absent slot reads as no cards; a present one is returned whole. */
    function Cards(): (cards: seq<Card>)
      reads this`slot
      ensures slot.None? ==> cards == []
      ensures slot.Some? ==> cards == slot.value
    {
      match slot
      case None => []
      case Some(stored) => stored
    }

    /**
     * The handlers keep the grid in step with the store and the filter, and
     * an open detail always names a stored card.
     */
    ghost predicate Valid()
      reads this
    {
      && grid == Plan(Cards(), activeFilter)
      && (currentDetailId.Some? ==> HasId(Cards(), currentDetailId.value))
    }

    /** Page load: the globals' initial values, then the first renderCards. */
    constructor (stored: Option<seq<Card>>)
      ensures slot == stored
      ensures selectedColor == DefaultColor && selectedCategory == Fallback && activeFilter == "all"
      ensures currentDetailId == None && !addModalActive && !detailModalActive
      ensures Valid()
    {
      slot := stored;
      selectedColor := DefaultColor;
      selectedCategory := Fallback;
      activeFilter := "all";
      currentDetailId := None;
      addModalActive := false;
      detailModalActive := false;
      grid := EmptyState;
      new;
      RenderCards();
    }

    // -------------------------------------------------------------------------
    // Card store
    // -------------------------------------------------------------------------

    method SaveCards(cards: seq<Card>)
      modifies this`slot
      ensures slot == Some(cards)
    {
      slot := Some(cards);
    }

    /** addCard: the draft, stamped with the clock reading as its id, goes last; earlier cards stay as they were. */
    method AddCard(draft: Card, now: nat) returns (card: Card)
      modifies this`slot
      ensures card == Stamped(draft, now)
      ensures slot == Some(old(Cards()) + [card])
    {
      var cards := Cards();
      card := Stamped(draft, now);
      cards := cards + [card];
      SaveCards(cards);
    }

    /** removeCard: writes back the cards whose id differs, even when none matched. */
    method RemoveCard(id: string)
      modifies this`slot
      ensures slot == Some(WithoutId(old(Cards()), id))
    {
      var cards := WithoutId(Cards(), id);
      SaveCards(cards);
    }

    method RenderCards()
      modifies this`grid
      ensures grid == Plan(Cards(), activeFilter)
    {
      grid := BuildPlan(Cards(), activeFilter);
    }

    // -------------------------------------------------------------------------
    // Add modal, pickers and filter bar
    // -------------------------------------------------------------------------

    method OpenAddModal()
      modifies this`selectedColor, this`selectedCategory, this`addModalActive
      ensures selectedColor == DefaultColor && selectedCategory == Fallback && addModalActive
      ensures old(Valid()) ==> Valid()
    {
      selectedColor := DefaultColor;
      selectedCategory := Fallback;
      addModalActive := true;
    }

    method CloseAddModal()
      modifies this`addModalActive
      ensures !addModalActive
      ensures old(Valid()) ==> Valid()
    {
      addModalActive := false;
    }

    /** A click in the category picker; `picked` is the clicked option's category, None when no option was hit. */
    method PickCategory(picked: Option<string>)
      modifies this`selectedCategory
      ensures selectedCategory == if picked.Some? then picked.value else old(selectedCategory)
      ensures old(Valid()) ==> Valid()
    {
      if picked.Some? {
        selectedCategory := picked.value;
      }
    }

    /** A click in the colour picker; `picked` is the clicked option's colour, None when no option was hit. */
    method PickColor(picked: Option<string>)
      modifies this`selectedColor
      ensures selectedColor == if picked.Some? then picked.value else old(selectedColor)
      ensures old(Valid()) ==> Valid()
    {
      if picked.Some? {
        selectedColor := picked.value;
      }
    }

    /** A click in the filter bar; `picked` is the clicked chip's filter, None when no chip was hit. */
    method PickFilter(picked: Option<string>)
      modifies this`activeFilter, this`grid
      ensures picked.None? ==> activeFilter == old(activeFilter) && grid == old(grid)
      ensures picked.Some? ==> activeFilter == picked.value && grid == Plan(Cards(), picked.value)
      ensures old(Valid()) ==> Valid()
    {
      if picked.Some? {
        activeFilter := picked.value;
        RenderCards();
      }
    }

    /**
     * Form submit. Blank input (empty after trimming) is ignored; otherwise
     * one card with the trimmed values and the current colour and category
     * is added, the modal closes and the grid is redrawn.
     */
    method SubmitAddForm(storeNameValue: string, barcodeValue: string, now: nat)
      modifies this`slot, this`addModalActive, this`grid
      ensures Trim(storeNameValue) == [] || Trim(barcodeValue) == [] ==>
                slot == old(slot) && addModalActive == old(addModalActive) && grid == old(grid)
      ensures Trim(storeNameValue) != [] && Trim(barcodeValue) != [] ==>
                && slot == Some(old(Cards()) + [Card(DecimalString(now), Trim(storeNameValue), Trim(barcodeValue),
                                                     selectedColor, Some(selectedCategory))])
                && !addModalActive
                && grid == Plan(Cards(), activeFilter)
      ensures old(Valid()) ==> Valid()
    {
      var storeName := Trim(storeNameValue);
      var barcodeNumber := Trim(barcodeValue);
      if storeName == [] || barcodeNumber == [] {
        return;
      }
      AcceptAddForm(storeName, barcodeNumber, now);
    }

    /** The rest of the submit handler once both fields are non-blank: add, close the modal, redraw. */
    method AcceptAddForm(storeName: string, barcodeNumber: string, now: nat)
      modifies this`slot, this`addModalActive, this`grid
      ensures slot == Some(old(Cards()) + [Card(DecimalString(now), storeName, barcodeNumber,
                                                selectedColor, Some(selectedCategory))])
      ensures !addModalActive
      ensures grid == Plan(Cards(), activeFilter)
      ensures old(Valid()) ==> Valid()
    {
      ghost var before := Cards();
      var card := AddCard(Card("", storeName, barcodeNumber, selectedColor, Some(selectedCategory)), now);
      assert card == Card(DecimalString(now), storeName, barcodeNumber, selectedColor, Some(selectedCategory));
      addModalActive := false;  // closeAddModalFn
      RenderCards();
      assert Cards() == before + [card];
      if currentDetailId.Some? {
        AppendKeepsIds(before, card, currentDetailId.value);
      }
    }

    // -------------------------------------------------------------------------
    // Detail modal
    // -------------------------------------------------------------------------

    /**
     * openDetail for a card clicked in the grid. `draws` says whether the
     * barcode library can draw a number in a symbology.
     */
    method OpenDetail(id: string, draws: (Symbology, DrawOptions, string) -> bool) returns (outcome: DetailOutcome)
      modifies this`currentDetailId, this`detailModalActive
      ensures !HasId(Cards(), id) ==>
                outcome == NotFound && currentDetailId == old(currentDetailId) &&
                detailModalActive == old(detailModalActive)
      ensures HasId(Cards(), id) ==>
                && currentDetailId == Some(id)
                && var card := Cards()[FirstWithId(Cards(), id).value];
                   var info := Info(ResolvedCategory(card.category));
                   && (info.None? ==> outcome == UnknownCategory && detailModalActive == old(detailModalActive))
                   && (info.Some? ==>
                         && detailModalActive
                         && outcome == Shown(card.storeName, card.barcodeNumber,
                                             info.value.emoji + " " + info.value.title,
                                             ChooseBarcode(draws, card.barcodeNumber)))
      ensures old(Valid()) ==> Valid()
    {
      var cards := Cards();
      var found := FirstWithId(cards, id);
      if found.None? {
        return NotFound;
      }
      var card := cards[found.value];
      currentDetailId := Some(id);
      var info := Info(ResolvedCategory(card.category));
      if info.None? {
        return UnknownCategory;
      }
      var image := ChooseBarcode(draws, card.barcodeNumber);
      detailModalActive := true;
      outcome := Shown(card.storeName, card.barcodeNumber, info.value.emoji + " " + info.value.title, image);
    }

    method CloseDetail()
      modifies this`currentDetailId, this`detailModalActive
      ensures currentDetailId == None && !detailModalActive
      ensures old(Valid()) ==> Valid()
    {
      detailModalActive := false;
      currentDetailId := None;
    }

    /**
     * The delete button. Nothing happens without an open detail (an empty id
     * counts as none) or without the user's confirmation; otherwise that id
     * is removed, the detail closes and the grid is redrawn.
     */
    method DeleteCurrent(confirmed: bool)
      modifies this`slot, this`currentDetailId, this`detailModalActive, this`grid
      ensures old(currentDetailId).None? || old(currentDetailId) == Some("") || !confirmed ==> unchanged(this)
      ensures old(currentDetailId).Some? && old(currentDetailId) != Some("") && confirmed ==>
                && slot == Some(WithoutId(old(Cards()), old(currentDetailId).value))
                && !HasId(Cards(), old(currentDetailId).value)
                && currentDetailId == None && !detailModalActive
                && grid == Plan(Cards(), activeFilter)
      ensures old(Valid()) ==> Valid()
    {
      if currentDetailId.None? || currentDetailId.value == "" {
        return;
      }
      if confirmed {
        RemoveCard(currentDetailId.value);
        CloseDetail();
        RenderCards();
      }
    }
  }
}
