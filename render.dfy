/**
 * renderCards without the HTML: which placeholder or which category groups
 * the grid shows for a stored collection and the active filter.
 */
module Render {
  import opened Wrappers
  import opened Seqs
  import opened Store
  import opened Categories

  /** One section of the grid: its category key, whether its header is drawn, and its cards in order. */
  datatype Group = Group(category: string, showHeader: bool, cards: seq<Card>)

  datatype RenderPlan =
    | EmptyState                 // the "no cards yet" placeholder
    | NoMatches                  // "Geen kaarten in deze categorie"
    | Groups(groups: seq<Group>) // the card grid, section by section

  function InCategory(key: string): Card -> bool {
    (c: Card) => c.category == Some(key)
  }

  /** `cards.filter(c => c.category === key)`, in stored order. */
  function OfCategory(cards: seq<Card>, key: string): (r: seq<Card>)
    ensures forall c :: c in r <==> c in cards && c.category == Some(key)
  {
    Filter(cards, InCategory(key))
  }

  /** What the active filter lets through: everything for 'all', else one category. */
  function Matching(cards: seq<Card>, filter: string): (r: seq<Card>)
    ensures |r| <= |cards|
    ensures filter == "all" ==> r == cards
    ensures filter != "all" ==> forall c :: c in r <==> c in cards && c.category == Some(filter)
  {
    if filter == "all" then cards else OfCategory(cards, filter)
  }

  /** The normalised cards that survive the filter, in stored order. */
  function Filtered(stored: seq<Card>, filter: string): (r: seq<Card>)
    ensures |r| <= |stored|
    ensures filter == "all" ==> |r| == |stored|
  {
    Matching(WithDefaultCategory(stored), filter)
  }

  function HasCards(cards: seq<Card>): string -> bool {
    (key: string) => OfCategory(cards, key) != []
  }

  function KeysOf(grouped: seq<(string, seq<Card>)>): seq<string> {
    seq(|grouped|, i requires 0 <= i < |grouped| => grouped[i].0)
  }

  function CategoriesOf(groups: seq<Group>): seq<string> {
    seq(|groups|, i requires 0 <= i < |groups| => groups[i].category)
  }

  /**
   * The `grouped` object: for each key of `keys` in turn, the cards of that
   * category, kept only when there is at least one.
   */
  function Grouped(cards: seq<Card>, keys: seq<string>): (r: seq<(string, seq<Card>)>)
    ensures |r| <= |keys|
    decreases |keys|
  {
    if keys == [] then []
    else
      var prefix := Grouped(cards, keys[..|keys| - 1]);
      var key := keys[|keys| - 1];
      var group := OfCategory(cards, key);
      if group != [] then prefix + [(key, group)] else prefix
  }

  /**
   * The groups are the keys that have cards, in the order of `keys`, and each
   * holds exactly the cards of its key and is not empty.
   */
  lemma GroupedShape(cards: seq<Card>, keys: seq<string>)
    ensures var g := Grouped(cards, keys);
      && KeysOf(g) == Filter(keys, HasCards(cards))
      && GroupsFull(cards, g)
  {
    GroupedKeys(cards, keys);
    GroupedContents(cards, keys);
  }

  lemma {:induction false} GroupedKeys(cards: seq<Card>, keys: seq<string>)
    ensures KeysOf(Grouped(cards, keys)) == Filter(keys, HasCards(cards))
    decreases |keys|
  {
    if keys != [] {
      var front, key := keys[..|keys| - 1], keys[|keys| - 1];
      assert keys == front + [key];
      GroupedKeys(cards, front);
      GroupedStep(cards, front, key);
    }
  }

  /** One more key: the keys so far, then the new one when it has cards. */
  lemma GroupedStep(cards: seq<Card>, front: seq<string>, key: string)
    requires KeysOf(Grouped(cards, front)) == Filter(front, HasCards(cards))
    ensures KeysOf(Grouped(cards, front + [key])) == Filter(front + [key], HasCards(cards))
  {
    var keys := front + [key];
    assert keys[..|keys| - 1] == front;
    var prefix, group := Grouped(cards, front), OfCategory(cards, key);
    FilterSnoc(front, key, HasCards(cards));
    if group != [] {
      KeysOfSnoc(prefix, (key, group));
    }
  }

  lemma KeysOfSnoc(grouped: seq<(string, seq<Card>)>, entry: (string, seq<Card>))
    ensures KeysOf(grouped + [entry]) == KeysOf(grouped) + [entry.0]
  {
  }

  /** Every group holds exactly the cards of its key, and at least one. */
  ghost predicate GroupsFull(cards: seq<Card>, grouped: seq<(string, seq<Card>)>) {
    forall i :: 0 <= i < |grouped| ==> grouped[i].1 == OfCategory(cards, grouped[i].0) && grouped[i].1 != []
  }

  lemma {:induction false} GroupedContents(cards: seq<Card>, keys: seq<string>)
    ensures GroupsFull(cards, Grouped(cards, keys))
    decreases |keys|
  {
    if keys != [] {
      var front, key := keys[..|keys| - 1], keys[|keys| - 1];
      GroupedContents(cards, front);
      var prefix, group := Grouped(cards, front), OfCategory(cards, key);
      if group != [] {
        var g := prefix + [(key, group)];
        forall i | 0 <= i < |g|
          ensures g[i].1 == OfCategory(cards, g[i].0) && g[i].1 != []
        {
          if i < |prefix| {
            assert g[i] == prefix[i];
          }
        }
      }
    }
  }

  /** The groups in the order of `grouped`, every header shown or every header hidden. */
  function WithHeaders(grouped: seq<(string, seq<Card>)>, show: bool): (r: seq<Group>)
    ensures |r| == |grouped|
  {
    seq(|grouped|, i requires 0 <= i < |grouped| => Group(grouped[i].0, show, grouped[i].1))
  }

  /**
   * The plan renderCards draws for the stored collection under `filter`: the
   * empty collection gives the empty state whatever the filter, and a
   * non-empty one whose cards all fail the filter gives the no-matches
   * placeholder, never the empty state.
   */
  function Plan(stored: seq<Card>, filter: string): (r: RenderPlan)
    ensures r == EmptyState <==> stored == []
    ensures r == NoMatches <==> stored != [] && Filtered(stored, filter) == []
  {
    var all := WithDefaultCategory(stored);
    var filtered := Matching(all, filter);
    if |all| == 0 then EmptyState
    else if |filtered| == 0 then NoMatches
    else
      var grouped := Grouped(filtered, CategoryOrder);
      Groups(WithHeaders(grouped, filter == "all" && |grouped| > 1))
  }

  /**
   * The groups are the categories of CATEGORY_ORDER that hold a filtered card,
   * in that order; each holds exactly the filtered cards of its category, in
   * stored order, and is never empty; a header is drawn exactly when the
   * filter is 'all' and there are two or more groups.
   */
  lemma PlanGroups(stored: seq<Card>, filter: string)
    requires Plan(stored, filter).Groups?
    ensures var gs, filtered := Plan(stored, filter).groups, Filtered(stored, filter);
      && CategoriesOf(gs) == Filter(CategoryOrder, HasCards(filtered))
      && forall i :: 0 <= i < |gs| ==>
           && gs[i].cards == OfCategory(filtered, gs[i].category)
           && gs[i].cards != []
           && (gs[i].showHeader <==> filter == "all" && |gs| >= 2)
  {
    var filtered := Filtered(stored, filter);
    var grouped := Grouped(filtered, CategoryOrder);
    var show := filter == "all" && |grouped| > 1;
    assert Plan(stored, filter) == Groups(WithHeaders(grouped, show));
    WithHeadersShape(grouped, show);
    GroupedShape(filtered, CategoryOrder);
  }

  lemma WithHeadersShape(grouped: seq<(string, seq<Card>)>, show: bool)
    ensures |WithHeaders(grouped, show)| == |grouped|
    ensures CategoriesOf(WithHeaders(grouped, show)) == KeysOf(grouped)
    ensures forall i :: 0 <= i < |grouped| ==> WithHeaders(grouped, show)[i] == Group(grouped[i].0, show, grouped[i].1)
  {
  }

  /**
   * A card is in some group of `Grouped(cards, keys)` exactly when it is one
   * of `cards` and its category is one of `keys`.
   */
  lemma GroupedMembership(cards: seq<Card>, keys: seq<string>, c: Card)
    ensures var g := Grouped(cards, keys);
      && (forall i :: 0 <= i < |g| ==> g[i].0 in keys)
      && ((exists i :: 0 <= i < |g| && c in g[i].1) <==>
          c in cards && c.category.Some? && c.category.value in keys)
  {
    GroupedShape(cards, keys);
    GroupedKeysFromKeys(cards, keys);
    if c in cards && c.category.Some? && c.category.value in keys {
      GroupedHoldsCard(cards, keys, c);
    }
  }

  lemma GroupedKeysFromKeys(cards: seq<Card>, keys: seq<string>)
    ensures var g := Grouped(cards, keys);
      forall i :: 0 <= i < |g| ==> g[i].0 in keys
  {
    var g := Grouped(cards, keys);
    var ks := KeysOf(g);
    GroupedKeys(cards, keys);
    forall i | 0 <= i < |g|
      ensures g[i].0 in keys
    {
      assert ks[i] == g[i].0;
      assert ks[i] in ks;
    }
  }

  lemma GroupedHoldsCard(cards: seq<Card>, keys: seq<string>, c: Card)
    requires c in cards && c.category.Some? && c.category.value in keys
    ensures var g := Grouped(cards, keys);
      exists i :: 0 <= i < |g| && c in g[i].1
  {
    var g := Grouped(cards, keys);
    var ks := KeysOf(g);
    var k := c.category.value;
    GroupedKeys(cards, keys);
    GroupedContents(cards, keys);
    assert c in OfCategory(cards, k);
    assert HasCards(cards)(k);
    assert k in ks;
    var i :| 0 <= i < |ks| && ks[i] == k;
    assert c in g[i].1;
  }

  /** A plan with groups is the header-marked grouping of the filtered cards. */
  lemma PlanIsGrouping(stored: seq<Card>, filter: string, gs: seq<Group>)
    requires Plan(stored, filter) == Groups(gs)
    ensures gs == WithHeaders(Grouped(Filtered(stored, filter), CategoryOrder),
                              filter == "all" && |Grouped(Filtered(stored, filter), CategoryOrder)| > 1)
  {
  }

  lemma HeadedMembership(cards: seq<Card>, show: bool, keys: seq<string>, gs: seq<Group>, c: Card)
    requires gs == WithHeaders(Grouped(cards, keys), show)
    ensures forall i :: 0 <= i < |gs| ==> gs[i].category in keys
    ensures (exists i :: 0 <= i < |gs| && c in gs[i].cards) <==>
            c in cards && c.category.Some? && c.category.value in keys
  {
    var grouped := Grouped(cards, keys);
    WithHeadersShape(grouped, show);
    GroupedMembership(cards, keys, c);
    forall i | 0 <= i < |gs| ensures gs[i].category in keys {
      assert gs[i].category == grouped[i].0;
    }
    if exists i :: 0 <= i < |gs| && c in gs[i].cards {
      var i :| 0 <= i < |gs| && c in gs[i].cards;
      assert c in grouped[i].1;
    }
    if c in cards && c.category.Some? && c.category.value in keys {
      var i :| 0 <= i < |grouped| && c in grouped[i].1;
      assert c in gs[i].cards;
    }
  }

  /**
   * Every group is one of the five categories, and a card is drawn in some
   * group exactly when it passes the filter and its category is one of the
   * five: a card with any other category passes 'all' but is drawn nowhere.
   */
  lemma GroupMembership(stored: seq<Card>, filter: string, gs: seq<Group>, c: Card)
    requires Plan(stored, filter) == Groups(gs)
    ensures forall i :: 0 <= i < |gs| ==> gs[i].category in CategoryOrder
    ensures (exists i :: 0 <= i < |gs| && c in gs[i].cards) <==>
            c in Filtered(stored, filter) && c.category.Some? && c.category.value in CategoryOrder
  {
    PlanIsGrouping(stored, filter, gs);
    var filtered := Filtered(stored, filter);
    HeadedMembership(filtered, filter == "all" && |Grouped(filtered, CategoryOrder)| > 1, CategoryOrder, gs, c);
  }

  lemma HeadedCategories(cards: seq<Card>, show: bool, keys: seq<string>, gs: seq<Group>, i: nat, c: Card)
    requires gs == WithHeaders(Grouped(cards, keys), show)
    requires i < |gs| && c in gs[i].cards
    ensures c.category == Some(gs[i].category)
  {
    var grouped := Grouped(cards, keys);
    WithHeadersShape(grouped, show);
    GroupedShape(cards, keys);
    assert c in OfCategory(cards, grouped[i].0);
  }

  /** Every card drawn in a group carries that group's category. */
  lemma GroupCardsHaveCategory(stored: seq<Card>, filter: string, gs: seq<Group>, i: nat, c: Card)
    requires Plan(stored, filter) == Groups(gs)
    requires i < |gs| && c in gs[i].cards
    ensures c.category == Some(gs[i].category)
  {
    PlanIsGrouping(stored, filter, gs);
    var filtered := Filtered(stored, filter);
    HeadedCategories(filtered, filter == "all" && |Grouped(filtered, CategoryOrder)| > 1, CategoryOrder, gs, i, c);
  }

  /** A card stored before categories existed is drawn under 'overig' in the 'all' view. */
  lemma LegacyCardUnderFallback(stored: seq<Card>, j: nat)
    requires j < |stored| && stored[j].category.None?
    ensures Plan(stored, "all").Groups?
    ensures var gs := Plan(stored, "all").groups;
      exists i :: 0 <= i < |gs| && gs[i].category == Fallback && Normalised(stored[j]) in gs[i].cards
  {
    var c := Normalised(stored[j]);
    DefaultCategoryApplied(stored);
    assert WithDefaultCategory(stored)[j] == c;
    assert c in Filtered(stored, "all");
    var gs := Plan(stored, "all").groups;
    GroupMembership(stored, "all", gs, c);
    assert c.category.value in CategoryOrder;
    var i :| 0 <= i < |gs| && c in gs[i].cards;
    GroupCardsHaveCategory(stored, "all", gs, i, c);
  }

  lemma CategoryOrderDistinct()
    ensures forall i, j :: 0 <= i < j < |CategoryOrder| ==> CategoryOrder[i] != CategoryOrder[j]
  {
  }

  /** Filtering a list without repeats to entries equal to `x` leaves at most one entry. */
  lemma {:induction false} AtMostOneMatch(keys: seq<string>, keep: string -> bool, x: string)
    requires forall i, j :: 0 <= i < j < |keys| ==> keys[i] != keys[j]
    requires forall k :: k in Filter(keys, keep) ==> k == x
    ensures |Filter(keys, keep)| <= 1
  {
    if keys != [] {
      var tail := keys[1..];
      assert forall k :: k in Filter(tail, keep) ==> k in Filter(keys, keep);
      if keep(keys[0]) {
        assert keys[0] in Filter(keys, keep);
        assert x !in tail;
        FilterNoneKept(tail, keep);
      } else {
        AtMostOneMatch(tail, keep, x);
      }
    }
  }

  lemma HeadedSingleCategory(cards: seq<Card>, show: bool, keys: seq<string>, gs: seq<Group>, f: string)
    requires gs == WithHeaders(Grouped(cards, keys), show)
    requires forall i, j :: 0 <= i < j < |keys| ==> keys[i] != keys[j]
    requires forall c :: c in cards ==> c.category == Some(f)
    ensures |gs| <= 1
    ensures forall i :: 0 <= i < |gs| ==> gs[i].category == f && gs[i].showHeader == show
  {
    var grouped := Grouped(cards, keys);
    WithHeadersShape(grouped, show);
    GroupedShape(cards, keys);
    forall i | 0 <= i < |gs|
      ensures gs[i].category == f
    {
      var c := grouped[i].1[0];
      assert c in OfCategory(cards, grouped[i].0);
    }
    assert forall k :: k in CategoriesOf(gs) ==> k == f;
    AtMostOneMatch(keys, HasCards(cards), f);
  }

  /**
   * Under a specific category filter no header is drawn, every group and
   * every drawn card has the filter's category, and so at most one group is
   * drawn.
   */
  lemma SpecificFilterShowsOneCategory(stored: seq<Card>, filter: string, gs: seq<Group>)
    requires filter != "all" && Plan(stored, filter) == Groups(gs)
    ensures |gs| <= 1
    ensures forall i :: 0 <= i < |gs| ==> !gs[i].showHeader && gs[i].category == filter
    ensures forall i, c :: 0 <= i < |gs| && c in gs[i].cards ==> c.category == Some(filter)
  {
    var filtered := Filtered(stored, filter);
    PlanIsGrouping(stored, filter, gs);
    CategoryOrderDistinct();
    HeadedSingleCategory(filtered, false, CategoryOrder, gs, filter);
    forall i, c | 0 <= i < |gs| && c in gs[i].cards
      ensures c.category == Some(filter)
    {
      GroupCardsHaveCategory(stored, filter, gs, i, c);
    }
  }

  /**
   * A non-empty collection whose every category lies outside the five keys
   * is drawn under 'all' as a grid with no group at all: neither placeholder
   * appears, and nothing is drawn.
   */
  lemma UnknownCategoriesDrawNothing(stored: seq<Card>)
    requires stored != []
    requires forall c :: c in stored ==> c.category.Some? && c.category.value != "" && c.category.value !in CategoryOrder
    ensures Plan(stored, "all") == Groups([])
  {
    var filtered := Filtered(stored, "all");
    DefaultCategoryApplied(stored);
    forall c | c in filtered
      ensures c.category.Some? && c.category.value !in CategoryOrder
    {
      var j :| 0 <= j < |filtered| && filtered[j] == c;
      assert stored[j] in stored;
    }
    forall k | k in CategoryOrder
      ensures !HasCards(filtered)(k)
    {
      NoMemberEmpty(OfCategory(filtered, k));
    }
    FilterNoneKept(CategoryOrder, HasCards(filtered));
    var gs := Plan(stored, "all").groups;
    PlanGroups(stored, "all");
    assert |CategoriesOf(gs)| == 0;
  }

  /** The `CATEGORY_ORDER.forEach` loop of renderCards that fills `grouped`. */
  method GroupInOrder(cards: seq<Card>, keys: seq<string>) returns (grouped: seq<(string, seq<Card>)>)
    ensures grouped == Grouped(cards, keys)
  {
    grouped := [];
    var i := 0;
    while i < |keys|
      invariant 0 <= i <= |keys|
      invariant grouped == Grouped(cards, keys[..i])
    {
      var key := keys[i];
      var group := OfCategory(cards, key);
      if |group| > 0 {
        grouped := grouped + [(key, group)];
      }
      assert keys[..i + 1][..i] == keys[..i];
      i := i + 1;
    }
    assert keys[..i] == keys;
  }

  /** The `groupKeys.forEach` loop of renderCards: one section per group, headers decided once for all. */
  method MarkHeaders(grouped: seq<(string, seq<Card>)>, filter: string) returns (groups: seq<Group>)
    ensures groups == WithHeaders(grouped, filter == "all" && |grouped| > 1)
  {
    var groupKeys := KeysOf(grouped);
    groups := [];
    var j := 0;
    while j < |groupKeys|
      invariant 0 <= j <= |groupKeys| == |grouped|
      invariant groups == WithHeaders(grouped[..j], filter == "all" && |groupKeys| > 1)
    {
      var show := filter == "all" && |groupKeys| > 1;
      groups := groups + [Group(groupKeys[j], show, grouped[j].1)];
      j := j + 1;
    }
    assert grouped[..j] == grouped;
  }

  /**
   * renderCards as app.js computes it: normalise, filter, decide between the
   * two placeholders, then group and mark headers. It draws exactly Plan.
   */
  method BuildPlan(stored: seq<Card>, filter: string) returns (plan: RenderPlan)
    ensures plan == Plan(stored, filter)
  {
    var all := WithDefaultCategory(stored);
    var filtered := Matching(all, filter);
    if |all| == 0 {
      return EmptyState;
    }
    if |filtered| == 0 {
      return NoMatches;
    }
    var grouped := GroupInOrder(filtered, CategoryOrder);
    var groups := MarkHeaders(grouped, filter);
    plan := Groups(groups);
  }
}
