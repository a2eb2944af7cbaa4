/**
 * The card store of app.js: the record persisted under the `klantenkaarten`
 * key, the ids `addCard` derives from the clock, and the pure collection
 * updates that `addCard`, `removeCard` and `openDetail` apply to it.
 */
module Store {
  import opened Wrappers
  import opened Seqs

  /** A loyalty card as persisted. `category` is None in records written before categories existed. */
  datatype Card = Card(
    id: string,
    storeName: string,
    barcodeNumber: string,
    color: string,
    category: Option<string>)

  // ---------------------------------------------------------------------------
  // Ids: `Date.now().toString()` for a non-negative millisecond reading
  // ---------------------------------------------------------------------------

  function DigitChar(d: nat): (c: char)
    requires d < 10
    ensures '0' <= c <= '9'
  {
    ('0' as int + d) as char
  }

  function DigitValue(c: char): nat {
    if '0' <= c <= '9' then c as int - '0' as int else 0
  }

  /** The decimal numeral of `n` as JavaScript's Number.prototype.toString writes it. */
  function DecimalString(n: nat): (s: string)
    ensures |s| >= 1
    ensures forall i :: 0 <= i < |s| ==> '0' <= s[i] <= '9'
    ensures s[0] == '0' ==> n == 0
    decreases n
  {
    if n < 10 then [DigitChar(n)] else DecimalString(n / 10) + [DigitChar(n % 10)]
  }

  /** Reads a numeral back: the inverse of DecimalString. */
  function ParseDecimal(s: string): nat {
    if s == [] then 0 else 10 * ParseDecimal(s[..|s| - 1]) + DigitValue(s[|s| - 1])
  }

  lemma {:induction false} ParseDecimalString(n: nat)
    ensures ParseDecimal(DecimalString(n)) == n
    decreases n
  {
    var s := DecimalString(n);
    if n >= 10 {
      assert s[..|s| - 1] == DecimalString(n / 10);
      assert DigitValue(s[|s| - 1]) == n % 10;
      ParseDecimalString(n / 10);
    }
  }

  /** Two different clock readings never yield the same id; equal readings do (see SameInstantRemovesBoth). */
  lemma ClockIdsDistinct(a: nat, b: nat)
    requires a != b
    ensures DecimalString(a) != DecimalString(b)
  {
    ParseDecimalString(a);
    ParseDecimalString(b);
  }

  // ---------------------------------------------------------------------------
  // Collection updates
  // ---------------------------------------------------------------------------

  /** The card `addCard` stores for `draft` at clock reading `now`. */
  function Stamped(draft: Card, now: nat): (card: Card)
    ensures card.id == DecimalString(now)
    ensures card.(id := draft.id) == draft
  {
    draft.(id := DecimalString(now))
  }

  predicate HasId(cards: seq<Card>, id: string) {
    exists c :: c in cards && c.id == id
  }

  function IdDiffers(id: string): Card -> bool {
    (c: Card) => c.id != id
  }

  /** `cards.filter(c => c.id !== id)`: the collection `removeCard(id)` writes back. */
  function WithoutId(cards: seq<Card>, id: string): (r: seq<Card>)
    ensures |r| <= |cards|
    ensures forall c :: c in r <==> c in cards && c.id != id
    ensures !HasId(r, id)
  {
    Filter(cards, IdDiffers(id))
  }

  /** Removing keeps exactly the other cards, each as often as it was stored. */
  lemma WithoutIdCounts(cards: seq<Card>, id: string, c: Card)
    ensures multiset(WithoutId(cards, id))[c] == if c.id == id then 0 else multiset(cards)[c]
  {
    FilterCounts(cards, IdDiffers(id), c);
  }

  /** Removing keeps the survivors in their stored order: it distributes over concatenation. */
  lemma WithoutIdConcat(a: seq<Card>, b: seq<Card>, id: string)
    ensures WithoutId(a + b, id) == WithoutId(a, id) + WithoutId(b, id)
  {
    FilterConcat(a, b, IdDiffers(id));
  }

  /** Removing an id no card carries leaves the collection unchanged. */
  lemma WithoutAbsentId(cards: seq<Card>, id: string)
    requires !HasId(cards, id)
    ensures WithoutId(cards, id) == cards
  {
    FilterAllKept(cards, IdDiffers(id));
  }

  /** Removing twice equals removing once. */
  lemma WithoutIdTwice(cards: seq<Card>, id: string)
    ensures WithoutId(WithoutId(cards, id), id) == WithoutId(cards, id)
  {
    WithoutAbsentId(WithoutId(cards, id), id);
  }

  /** Removals of two ids can be applied in either order. */
  lemma WithoutIdCommutes(cards: seq<Card>, a: string, b: string)
    ensures WithoutId(WithoutId(cards, a), b) == WithoutId(WithoutId(cards, b), a)
  {
    FilterCommutes(cards, IdDiffers(a), IdDiffers(b));
  }

  /** Adding a card with a fresh id and then removing that id restores the collection. */
  lemma AddThenRemove(cards: seq<Card>, draft: Card, now: nat)
    requires !HasId(cards, DecimalString(now))
    ensures WithoutId(cards + [Stamped(draft, now)], DecimalString(now)) == cards
  {
    var id := DecimalString(now);
    WithoutIdConcat(cards, [Stamped(draft, now)], id);
    WithoutAbsentId(cards, id);
    assert WithoutId([Stamped(draft, now)], id) == [];
  }

  /**
   * Ids are not unique: two cards added at the same clock reading share an id,
   * and removing that id deletes both.
   */
  lemma SameInstantRemovesBoth(cards: seq<Card>, first: Card, second: Card, now: nat)
    ensures Stamped(first, now).id == Stamped(second, now).id
    ensures WithoutId(cards + [Stamped(first, now)] + [Stamped(second, now)], DecimalString(now))
         == WithoutId(cards, DecimalString(now))
  {
    var id := DecimalString(now);
    var a, b := Stamped(first, now), Stamped(second, now);
    WithoutIdConcat(cards + [a], [b], id);
    WithoutIdConcat(cards, [a], id);
    assert WithoutId([a], id) == [] && WithoutId([b], id) == [];
  }

  /** `cards.find(c => c.id === id)`, as the index of the first card with that id. */
  function FirstWithId(cards: seq<Card>, id: string): (r: Option<nat>)
    ensures r.None? <==> !HasId(cards, id)
    ensures r.Some? ==> r.value < |cards| && cards[r.value].id == id
    ensures r.Some? ==> forall j :: 0 <= j < r.value ==> cards[j].id != id
  {
    if cards == [] then None
    else if cards[0].id == id then Some(0)
    else
      assert forall c :: c in cards ==> c == cards[0] || c in cards[1..];
      match FirstWithId(cards[1..], id)
      case None => None
      case Some(k) => Some(k + 1)
  }
}
