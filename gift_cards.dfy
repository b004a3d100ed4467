/** The gift card page: saving and deleting cards, the three figures above
    the table and the status badge. Amounts are integers. */
module GiftCards {
  import opened Collections
  import opened Lists

  datatype GiftCard = GiftCard(id: string, code: string, amount: int, balance: int, validFrom: string,
                               validTo: string, active: bool, usedBy: Option<string>)

  function CardId(card: GiftCard): string { card.id }

  /** A new card gets the id `gc<stamp>` and its full amount as balance. */
  function CreatedCard(card: GiftCard, stamp: string): GiftCard
  {
    card.(id := "gc" + stamp, balance := card.amount)
  }

  /** The list after `handleSave(card)`. */
  function Saved(cards: seq<GiftCard>, card: GiftCard, stamp: string): seq<GiftCard>
  {
    Upsert(cards, card, CardId, CreatedCard(card, stamp))
  }

  /** The list after `confirmDelete` with `pending` as `cardToDelete`. */
  function Deleted(cards: seq<GiftCard>, pending: string): seq<GiftCard>
  {
    WithoutId(cards, CardId, pending)
  }

  function Amount(card: GiftCard): int { card.amount }
  function IsActive(card: GiftCard): bool { card.active }
  function IsUsed(card: GiftCard): bool { card.usedBy.Some? && card.usedBy.value != "" }

  /** `totalValue`, `activeCards` and the "Used Cards" figure. */
  function TotalValue(cards: seq<GiftCard>): int { Sum(Amount, cards) }
  function ActiveCards(cards: seq<GiftCard>): nat { Count(IsActive, cards) }
  function UsedCards(cards: seq<GiftCard>): nat { Count(IsUsed, cards) }

  /** Saving a listed card replaces it: same length, the other cards and
      the total of the untouched cards unchanged. */
  lemma SaveExistingCard(cards: seq<GiftCard>, card: GiftCard, stamp: string)
    requires card.id != "" && Listed(cards, CardId, card.id)
    ensures |Saved(cards, card, stamp)| == |cards|
    ensures forall i :: 0 <= i < |cards| && cards[i].id == card.id ==> Saved(cards, card, stamp)[i] == card
    ensures forall i :: 0 <= i < |cards| && cards[i].id != card.id ==> Saved(cards, card, stamp)[i] == cards[i]
  {
    UpsertExisting(cards, card, CardId, CreatedCard(card, stamp));
  }

  /** Saving any other card appends it under a fresh id with balance equal
      to amount; the total value grows by that amount. */
  lemma SaveNewCard(cards: seq<GiftCard>, card: GiftCard, stamp: string)
    requires card.id == "" || !Listed(cards, CardId, card.id)
    ensures Saved(cards, card, stamp) == cards + [CreatedCard(card, stamp)]
    ensures CreatedCard(card, stamp).balance == card.amount && CreatedCard(card, stamp).id == "gc" + stamp
    ensures TotalValue(Saved(cards, card, stamp)) == TotalValue(cards) + card.amount
  {
    UpsertNew(cards, card, CardId, CreatedCard(card, stamp));
    SumAppend(Amount, cards, [CreatedCard(card, stamp)]);
  }

  /** Deleting removes exactly the cards with the pending id and never
      raises the active or used counts. */
  lemma DeleteCard(cards: seq<GiftCard>, pending: string)
    ensures !Listed(Deleted(cards, pending), CardId, pending)
    ensures forall i :: 0 <= i < |cards| && cards[i].id != pending ==> cards[i] in Deleted(cards, pending)
    ensures ActiveCards(Deleted(cards, pending)) <= ActiveCards(cards)
    ensures UsedCards(Deleted(cards, pending)) <= UsedCards(cards)
  {
    WithoutIdExactly(cards, CardId, pending);
    DeleteLowersCount(IsActive, cards, CardId, pending);
    DeleteLowersCount(IsUsed, cards, CardId, pending);
  }

  /** Neither count exceeds the number of cards. */
  lemma CountsBounded(cards: seq<GiftCard>)
    ensures ActiveCards(cards) <= |cards| && UsedCards(cards) <= |cards|
  {
  }

  datatype CardStatus = Active | Used | Inactive

  /** The status badge of a card. */
  function Status(card: GiftCard): (s: CardStatus)
    ensures s == Active <==> card.active && card.balance > 0
    ensures s == Used <==> !(card.active && card.balance > 0) && card.balance == 0
    ensures s == Inactive <==> !(card.active && card.balance > 0) && card.balance != 0
  {
    if card.active && card.balance > 0 then Active
    else if card.balance == 0 then Used
    else Inactive
  }

  /** A card just created from an active card with a positive amount shows
      as Active; with amount zero it shows as Used. */
  lemma CreatedCardStatus(card: GiftCard, stamp: string)
    ensures card.active && card.amount > 0 ==> Status(CreatedCard(card, stamp)) == Active
    ensures card.amount == 0 ==> Status(CreatedCard(card, stamp)) == Used
  {
  }
}
