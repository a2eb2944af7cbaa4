# Pasjesplank in Dafny

A model of the page logic of Pasjesplank, a loyalty-card wallet (`app.js`).
The wallet keeps a list of cards under the `klantenkaarten` storage key. Each
card has a store name, a barcode number, a colour, an optional category and an
id taken from the clock when it is added. The page shows the cards grouped by
category in a fixed order, with a filter bar, an add form and a detail view
that draws the barcode and can delete the card.

The model has these modules:

- `Seqs` (`seqs.dfy`): a generic order-preserving `Filter` and its laws. These
  are concatenation, counting, idempotence, commutation, and the cases where
  everything or nothing is kept.
- `Store` (`store.dfy`): the `Card` record and the clock-derived id.
  `DecimalString` is `Date.now().toString()` for a non-negative reading.
  `Stamped` is what `addCard` stores, `WithoutId` is what `removeCard` writes
  back, and `FirstWithId` is the `find` in `openDetail`.
- `Text` (`text.dfy`): `String.prototype.trim` over the ECMAScript white space
  and line terminator characters.
- `Categories` (`categories.dfy`): `CATEGORY_ORDER`, the `CATEGORIES` table,
  and the backward-compatible default of `'overig'`.
- `Render` (`render.dfy`): `renderCards` without HTML. `Plan` says which view
  the grid shows: the empty state, the "no cards in this category"
  placeholder, or a sequence of category groups with or without headers.
  `BuildPlan` computes the same result with the source's two loops.
- `Barcode` (`barcode.dfy`): the EAN-13 → CODE128 → blank fallback of the
  detail view. Whether the barcode library can draw a number is a parameter.
- `Controller` (`app.dfy`): class `App` holds the storage slot, the four page
  globals (`selectedColor`, `selectedCategory`, `activeFilter`,
  `currentDetailId`), the two modals and the drawn grid. Its methods are the
  event handlers. Every handler preserves `Valid()`: the grid shows `Plan` of
  the stored cards under the active filter, and an open detail names a stored
  card.

The clock (`Date.now()`), the `confirm` dialog and the form input values are
method parameters. The barcode library's accept/reject decision is also a
parameter.

## Model

| member | source | states |
|---|---|---|
| Controller.App.Cards | app.js:69-72 | an absent storage slot reads as no cards; a present one is returned whole |
| Controller.App.constructor | app.js:60-63 | page load: colour `#6C63FF`, category `overig`, filter `all`, no open detail; the grid is drawn for the stored cards, as the load-time `renderCards()` at app.js:431 does |
| Controller.App.SaveCards | app.js:74-76 | the slot then holds exactly the given list |
| Controller.App.AddCard | app.js:78-84 | the stored list becomes the old list plus the stamped card at the end, so the length grows by one and the earlier cards are unchanged; the returned card is the draft with the clock id |
| Controller.App.RemoveCard | app.js:86-89 | the stored list becomes exactly the cards whose id differs, even when no card matched |
| Controller.App.RenderCards | app.js:95-146 | the grid becomes the render plan of the stored cards under the active filter |
| Store.DecimalString | app.js:80 | the id text is a non-empty run of decimal digits with no leading zero unless the reading is 0; ParseDecimalString reads it back |
| Store.Stamped | app.js:80 | the stored card's id is the decimal numeral of the clock reading, and no other field of the draft changes |
| Store.ParseDecimalString | app.js:80 | the id numeral reads back to the clock reading it came from |
| Store.ClockIdsDistinct | app.js:80 | different clock readings give different ids |
| Store.WithoutId | app.js:87 | the result is no longer than the input, holds a card iff the card was stored and has another id, and no longer holds the id; order and multiplicity are stated by WithoutIdConcat and WithoutIdCounts |
| Store.WithoutIdCounts | app.js:87 | each surviving card keeps its multiplicity; cards with the id go to zero |
| Store.WithoutIdConcat | app.js:87 | removal preserves stored order: it distributes over concatenation |
| Store.WithoutAbsentId | app.js:86-89 | removing an id no card has changes nothing |
| Store.WithoutIdTwice | app.js:86-89 | removing twice equals removing once |
| Store.WithoutIdCommutes | app.js:86-89 | removing two ids gives the same list in either order |
| Store.AddThenRemove | app.js:78-89 | adding with a fresh clock id and then removing that id restores the list |
| Store.SameInstantRemovesBoth | app.js:78-89 | two cards added at the same clock reading share an id, and removing it deletes both |
| Store.FirstWithId | app.js:265-266 | no index iff no card has the id; otherwise the index of the first card with that id |
| Seqs.Filter | app.js:87 | the result is no longer than the input and holds exactly the kept elements |
| Seqs.FilterConcat | app.js:87 | filtering distributes over concatenation, so order is preserved |
| Seqs.FilterCommutes | app.js:87 | two filters commute |
| Text.TrimStart | app.js:248-249 | the result is a suffix, the dropped prefix is all white space, and the result does not start with white space |
| Text.TrimEnd | app.js:248-249 | the result is a prefix, the dropped suffix is all white space, and the result does not end with white space |
| Text.Trim | app.js:248-251 | the input is white space, then the suffix `TrimStart(s)`; that suffix is the result followed by white space; the result is empty iff the input is all white space, and otherwise starts and ends with a visible character |
| Text.TrimIdempotent | app.js:248-249 | trimming twice equals trimming once |
| Categories.Info | app.js:11-17 | a title and emoji are defined exactly for the five keys of CATEGORY_ORDER |
| Categories.ResolvedCategory | app.js:98 | a missing or empty category becomes `overig`; any other category is kept |
| Categories.Normalised | app.js:96-99 | the copied card has a non-empty category, differs from the original in no other field, and equals the original when it already had a non-empty category |
| Categories.WithDefaultCategory | app.js:96-99 | the normalised list has the same length as the stored one |
| Categories.DefaultCategoryApplied | app.js:96-99 | after normalising, every card has a non-empty category; a missing or empty one became `overig`; cards that had one are unchanged; no other field changes |
| Categories.DefaultCategoryIdempotent | app.js:96-99 | normalising twice equals normalising once |
| Render.OfCategory | app.js:122 | the result holds a card iff the card is in the input and has exactly that category |
| Render.Matching | app.js:102-104 | the `all` filter passes every card; any other filter keeps exactly the cards of that category |
| Render.Filtered | app.js:96-104 | the filtered list is no longer than the stored one, and under `all` it has the same length |
| Render.Grouped | app.js:120-124 | at most one group per key; GroupedShape states which groups and what they hold |
| Render.WithHeaders | app.js:129-134 | exactly one section per group; WithHeadersShape and PlanGroups state the order, the contents and the shared header flag |
| Render.GroupedShape | app.js:120-124 | the groups are the keys that hold cards, in key order; each holds exactly its key's cards, in stored order, and is not empty |
| Render.Plan | app.js:106-117 | the empty state iff nothing is stored, under any filter; the no-matches placeholder iff something is stored but nothing passes the filter |
| Render.PlanGroups | app.js:119-138 | groups follow CATEGORY_ORDER and are exactly the categories with a filtered card; each holds exactly its filtered cards in stored order and is non-empty; a header is shown iff the filter is `all` and there are at least two groups |
| Render.GroupMembership | app.js:102-124 | every group is one of the five categories; a card is drawn iff it passes the filter and its category is one of the five, so an unknown category passes `all` but is drawn nowhere |
| Render.GroupCardsHaveCategory | app.js:122 | every card drawn in a group has that group's category |
| Render.SpecificFilterShowsOneCategory | app.js:102-104 | under a specific filter there is at most one group, it has the filter's category and no header, and every drawn card has that category |
| Render.LegacyCardUnderFallback | app.js:96-99 | a card stored without a category is drawn in the `overig` group of the `all` view |
| Render.UnknownCategoriesDrawNothing | app.js:119-140 | a non-empty collection whose categories are all unknown draws a grid with no groups, and neither placeholder |
| Render.GroupInOrder | app.js:120-124 | the CATEGORY_ORDER loop builds exactly the grouping of the specification |
| Render.MarkHeaders | app.js:127-134 | the group-keys loop marks headers exactly as the plan does |
| Render.BuildPlan | app.js:95-146 | the imperative renderCards draws exactly `Plan` |
| Barcode.ChooseBarcode | app.js:277-298 | EAN-13 iff the library draws it; CODE128 iff EAN-13 fails and CODE128 succeeds; blank iff both fail |
| Barcode.ChosenBarcodeIsDrawable | app.js:277-298 | a drawn symbology is one the library accepts, and the element is blank iff no symbology is accepted |
| Controller.App.OpenAddModal | app.js:191-202 | the colour resets to `#6C63FF`, the category to `overig`, the modal opens, and the invariant is kept |
| Controller.App.CloseAddModal | app.js:204-206 | the add modal closes and nothing else changes |
| Controller.App.PickCategory | app.js:215-222 | a click on an option selects its category; a click beside the options changes nothing |
| Controller.App.PickColor | app.js:236-243 | a click on an option selects its colour; a click beside the options changes nothing |
| Controller.App.PickFilter | app.js:225-233 | a click on a chip sets the filter and redraws the grid for it; a click beside the chips changes nothing |
| Controller.App.SubmitAddForm | app.js:246-257 | if either trimmed input is empty, the store, modal and grid are unchanged; otherwise exactly one card is appended with the trimmed values, the clock id, and the current colour and category, the modal closes and the grid is redrawn |
| Controller.App.AcceptAddForm | app.js:253-255 | for accepted input: append the card, close the modal, redraw; the invariant is kept |
| Controller.App.OpenDetail | app.js:263-301 | an unknown id changes nothing; otherwise the detail id is set and the first matching card is shown with its category text and the fallback barcode; a category with no table entry stops before the modal opens |
| Controller.App.CloseDetail | app.js:303-306 | the detail modal closes and no detail is open |
| Controller.App.DeleteCurrent | app.js:313-321 | with no open detail (or an empty id) or no confirmation, nothing changes; otherwise the open id is removed from the store and is no longer held, the detail closes and the grid is redrawn |

## Left out

- The barcode scanner (app.js:327-387), toasts (app.js:396-413), the splash screen (app.js:25-34) and service-worker registration (app.js:419-425) are not modelled. They are I/O and timing with no state the core reads. `sw.js` is not part of this model.
- JSON encoding and `localStorage` are not modelled. The slot holds the card list directly, and `None` stands for a key that was never written. A stored text that fails to parse makes `getCards` throw in the source; the model has no such state. A slot holding an empty string would read as no cards; `saveCards` never writes one.
- The HTML text of `renderCardHtml`, `escapeHtml` and the group headers is not modelled. The plan records which cards are drawn, in which group, and whether a header appears. No claim is made about escaping: the first letter, colour and id go into the markup unescaped.
- DOM work is not modelled: class toggles on picker buttons, `addCardForm.reset()`, and attaching click handlers to drawn cards. Input values are parameters of `SubmitAddForm`. A card click is a call to `OpenDetail`.
- `CATEGORIES[key]` for keys inherited from `Object.prototype` (for example `constructor`) is modelled as absent. Only the five own keys have an entry. For such a category the source finds a function, shows "undefined undefined" and opens the detail modal. The model returns `UnknownCategory` and leaves the modal closed.
- Controller.App.AddCard: the clock reading is a natural number written in plain decimal. Negative readings and readings of 1e21 or more, where `toString` switches to exponent notation, are not modelled.
- Controller.App.OpenDetail: when the category has no table entry, the source throws a TypeError after setting the detail id and filling the name and number fields. The model records this as `UnknownCategory`. It sets the id, leaves the modal as it was, and does not model the half-filled text fields.
- The JsBarcode library is a predicate parameter of `ChooseBarcode`. Which numbers it accepts (check digits, lengths) is not modelled.
- The card drag gesture, `updateCategory` and `updateColor` do not occur in `app.js` and are not modelled.
- Controller.App.AcceptAddForm closes the modal by setting the flag directly instead of calling `CloseAddModal`. The effect is the same.
