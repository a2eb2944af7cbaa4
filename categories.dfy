/** The fixed category table of app.js and the backward-compatible category default. */
module Categories {
  import opened Wrappers
  import opened Store

  /** CATEGORY_ORDER: the display order of the category groups. */
  const CategoryOrder: seq<string> := ["supermarkt", "kleding", "drogisterij", "wonen", "overig"]

  /** The category given to cards stored without one. */
  const Fallback: string := "overig"

  /** A `CATEGORIES` entry. `title` holds the entry's `label` (a reserved word in Dafny). */
  datatype CategoryInfo = CategoryInfo(title: string, emoji: string)

  /** `CATEGORIES[key]`: defined exactly for the five keys of CATEGORY_ORDER. */
  function Info(key: string): (r: Option<CategoryInfo>)
    ensures r.Some? <==> key in CategoryOrder
  {
    if key == "supermarkt" then Some(CategoryInfo("Supermarkt", "\U{1F6D2}"))
    else if key == "kleding" then Some(CategoryInfo("Kleding", "\U{1F455}"))
    else if key == "drogisterij" then Some(CategoryInfo("Drogisterij", "\U{1F9F4}"))
    else if key == "wonen" then Some(CategoryInfo("Wonen", "\U{1F3E0}"))
    else if key == "overig" then Some(CategoryInfo("Overig", "\U{1F3F7}\U{FE0F}"))
    else None
  }

  /** `category || 'overig'`: a missing or empty category reads as the fallback. */
  function ResolvedCategory(category: Option<string>): (key: string)
    ensures key != ""
    ensures category.Some? && category.value != "" ==> key == category.value
    ensures category.None? || category.value == "" ==> key == Fallback
  {
    match category
    case Some(k) => if k != "" then k else Fallback
    case None => Fallback
  }

  /** `{...card, category: card.category || 'overig'}`. */
  function Normalised(card: Card): (r: Card)
    ensures r.category.Some? && r.category.value != ""
    ensures r.(category := card.category) == card
    ensures card.category.Some? && card.category.value != "" ==> r == card
  {
    card.(category := Some(ResolvedCategory(card.category)))
  }

  /** The `map` at the start of renderCards: every card with its category resolved. */
  function WithDefaultCategory(cards: seq<Card>): (r: seq<Card>)
    ensures |r| == |cards|
  {
    if cards == [] then [] else [Normalised(cards[0])] + WithDefaultCategory(cards[1..])
  }

  /**
   * After the `map` every card has a non-empty category; a card that had one
   * is returned as it was, one without (or with an empty one) gets 'overig',
   * and no other field changes.
   */
  lemma {:induction false} DefaultCategoryApplied(cards: seq<Card>)
    ensures var r := WithDefaultCategory(cards);
      && (forall i :: 0 <= i < |r| ==> r[i].category.Some? && r[i].category.value != "")
      && (forall i :: 0 <= i < |r| ==> r[i].(category := cards[i].category) == cards[i])
      && (forall i :: 0 <= i < |r| && (cards[i].category.None? || cards[i].category == Some("")) ==>
            r[i].category == Some(Fallback))
      && (forall i :: 0 <= i < |r| && cards[i].category.Some? && cards[i].category.value != "" ==>
            r[i] == cards[i])
  {
    if cards != [] {
      DefaultCategoryApplied(cards[1..]);
    }
  }

  /** Normalising is idempotent: normalised cards are left as they are. */
  lemma DefaultCategoryIdempotent(cards: seq<Card>)
    ensures WithDefaultCategory(WithDefaultCategory(cards)) == WithDefaultCategory(cards)
  {
    var r := WithDefaultCategory(cards);
    DefaultCategoryApplied(cards);
    DefaultCategoryApplied(r);
  }
}
