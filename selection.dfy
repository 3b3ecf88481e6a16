/**
 * Drawing cards for a spread, on the classic page of js/cards.js and on the Vue page
 * of js/components/CardsPage.js: the deck laid out from a shuffled catalog, the rule
 * that accepts or refuses a click, and the reading record saved once the draw is
 * complete. The shuffle, `[...cards].sort(() => Math.random() - 0.5)`, is an
 * arbitrary permutation of the catalog handed in by the caller.
 */
module Selection {
  import opened Wrappers
  import opened Catalog
  import opened Storage

  /** The number of cards laid out for the user to pick from. */
  const DeckSize: nat := 22

  /** What a click on a laid-out card did. */
  datatype SelectOutcome =
    | Shown     // the card was already turned: it is shown enlarged
    | Full      // the draw is complete: the click is refused
    | Appended  // the card joined the selection
    | Aborted   // the selected spread is unknown: `currentSpread.cards` throws

  /**
   * The selection rule shared by both pages: a click on a turned card, or any click
   * once `needed` cards are chosen, leaves the selection as it is; otherwise the card
   * is added at the end.
   */
  function Select(selection: seq<Card>, alreadyFlipped: bool, needed: nat, card: Card): (next: seq<Card>)
    ensures next == selection || next == selection + [card]
    ensures |next| == |selection| + 1 <==> !alreadyFlipped && |selection| < needed
    ensures |selection| <= needed ==> |next| <= needed
  {
    if alreadyFlipped || |selection| >= needed then selection else selection + [card]
  }

  /** A click on the laid-out card `card`, which was or was not turned at the time. */
  datatype Click = Click(flipped: bool, card: Card)

  /** The selection after a series of clicks, in order. */
  function SelectAll(selection: seq<Card>, clicks: seq<Click>, needed: nat): seq<Card>
    decreases |clicks|
  {
    if |clicks| == 0 then selection
    else SelectAll(Select(selection, clicks[0].flipped, needed, clicks[0].card), clicks[1..], needed)
  }

  /** The cards of the clicks on cards not yet turned, in click order. */
  function Unturned(clicks: seq<Click>): (cards: seq<Card>)
    ensures |cards| <= |clicks|
  {
    if |clicks| == 0 then []
    else (if clicks[0].flipped then [] else [clicks[0].card]) + Unturned(clicks[1..])
  }

  /**
   * Whatever the clicks, the selection keeps what it held and gains the cards of the
   * first clicks on unturned cards, up to the number still needed, and no others.
   */
  lemma {:induction false} SelectAllTakesFirstUnturned(selection: seq<Card>, clicks: seq<Click>, needed: nat)
    requires |selection| <= needed
    ensures SelectAll(selection, clicks, needed)
         == selection + Unturned(clicks)[..Min(|Unturned(clicks)|, needed - |selection|)]
    decreases |clicks|
  {
    if |clicks| > 0 {
      var c, rest := clicks[0], clicks[1..];
      var next := Select(selection, c.flipped, needed, c.card);
      SelectAllTakesFirstUnturned(next, rest, needed);
      if !c.flipped && |selection| < needed {
        var u := Unturned(rest);
        var k := Min(|u|, needed - |selection| - 1);
        assert Unturned(clicks) == [c.card] + u;
        assert ([c.card] + u)[..k + 1] == [c.card] + u[..k];
        assert selection + [c.card] + u[..k] == selection + ([c.card] + u[..k]);
      }
    }
  }

  /** However many clicks there are, a draw never exceeds the number of cards the spread needs. */
  lemma {:induction false} SelectAllBounded(selection: seq<Card>, clicks: seq<Click>, needed: nat)
    requires |selection| <= needed
    ensures |SelectAll(selection, clicks, needed)| <= needed
  {
    SelectAllTakesFirstUnturned(selection, clicks, needed);
  }

  /** The 22 cards `generateCards` lays out, or none when the catalog is too small. */
  function Dealt(shuffled: seq<Card>): (deck: seq<Card>)
    ensures |shuffled| < DeckSize ==> deck == []
    ensures |shuffled| >= DeckSize ==> |deck| == DeckSize
    ensures deck <= shuffled
  {
    if |shuffled| < DeckSize then [] else shuffled[..DeckSize]
  }

  /** `shuffled.slice(0, 22)`: the whole shuffle when it holds fewer than 22 cards. */
  function SlicedDeck(shuffled: seq<Card>): (deck: seq<Card>)
    ensures |deck| == Min(|shuffled|, DeckSize)
    ensures deck <= shuffled
  {
    shuffled[..Min(|shuffled|, DeckSize)]
  }

  /** A leading part of a shuffled catalog holds no card more often than the catalog does. */
  lemma DrawnFromCatalog(catalog: seq<Card>, shuffled: seq<Card>, deck: seq<Card>)
    requires multiset(shuffled) == multiset(catalog)
    requires deck <= shuffled
    ensures multiset(deck) <= multiset(catalog)
    ensures forall k :: 0 <= k < |deck| ==> deck[k] in catalog
  {
    assert shuffled == deck + shuffled[|deck|..];
    assert multiset(shuffled) == multiset(deck) + multiset(shuffled[|deck|..]);
    forall k | 0 <= k < |deck| ensures deck[k] in catalog {
      assert deck[k] in multiset(deck);
      assert deck[k] in multiset(catalog);
    }
  }

  /** The page of js/cards.js, with the browser storage it shares with the other pages. */
  class ClassicCardsPage {
    const storage: LocalStorage
    var tarotCards: seq<Card>
    var selectedSpread: string
    var currentSpread: Option<Spread>
    var selectedCards: seq<Card>
    var deck: seq<Card>
    var flipped: set<nat>
    var modalCard: Option<Card>

    /** Every laid-out card is a catalog card, and a known spread is never over-drawn. */
    predicate Valid()
      reads this
    {
      && (forall k :: 0 <= k < |deck| ==> deck[k] in tarotCards)
      && (currentSpread.Some? ==> |selectedCards| <= currentSpread.value.cards)
    }

    /** The script's top-level state, with the spread read from storage. */
    constructor (storage: LocalStorage)
      ensures this.storage == storage
      ensures tarotCards == [] && selectedCards == [] && deck == [] && flipped == {} && modalCard == None
      ensures selectedSpread == SpreadOrDefault(storage.selectedSpread)
      ensures currentSpread == SpreadOf(selectedSpread)
      ensures Valid()
    {
      this.storage := storage;
      tarotCards := [];
      selectedSpread := SpreadOrDefault(storage.selectedSpread);
      selectedCards := [];
      currentSpread := SpreadOf(SpreadOrDefault(storage.selectedSpread));
      deck := [];
      flipped := {};
      modalCard := None;
    }

    /**
     * `loadCardData`, which runs first on page load, before any card is laid out;
     * `fetched` is `None` when the fetch or the parse fails and the catalog stays as it was.
     */
    method LoadCardData(fetched: Option<seq<Card>>)
      requires Valid() && deck == []
      modifies this`tarotCards
      ensures fetched.None? ==> tarotCards == old(tarotCards)
      ensures fetched.Some? ==> tarotCards == fetched.value
      ensures Valid()
    {
      if fetched.Some? {
        tarotCards := fetched.value;
      }
    }

    /** `generateCards`: lays out the first 22 cards of the shuffle, or nothing when there are fewer. */
    method GenerateCards(shuffled: seq<Card>)
      requires Valid()
      requires multiset(shuffled) == multiset(tarotCards)
      modifies this`deck, this`flipped
      ensures deck == Dealt(shuffled)
      ensures flipped == {}
      ensures Valid()
    {
      deck := [];
      flipped := {};
      if |shuffled| < DeckSize {
        return;
      }
      for i := 0 to DeckSize
        invariant deck == shuffled[..i] && flipped == {}
      {
        deck := deck + [shuffled[i]];
      }
      DrawnFromCatalog(tarotCards, shuffled, deck);
    }

    /**
     * `selectCard` on the card laid out at `index`. The card saved is the first catalog
     * card with the laid-out card's name.
     */
    method SelectCard(index: nat) returns (outcome: SelectOutcome)
      requires Valid() && index < |deck|
      modifies this`selectedCards, this`modalCard
      ensures FindByName(tarotCards, deck[index].name).Some?
      ensures outcome == Shown <==> index in flipped
      ensures outcome == Aborted <==> index !in flipped && currentSpread.None?
      ensures outcome == Shown ==> modalCard == FindByName(tarotCards, deck[index].name)
      ensures outcome != Shown ==> modalCard == old(modalCard)
      ensures currentSpread.None? ==> selectedCards == old(selectedCards)
      ensures currentSpread.Some? ==>
                selectedCards == Select(old(selectedCards), index in flipped, currentSpread.value.cards,
                                        FindByName(tarotCards, deck[index].name).value)
      ensures outcome == Appended <==> |selectedCards| == |old(selectedCards)| + 1
      ensures Valid()
    {
      assert deck[index] in tarotCards;
      var cardData := FindByName(tarotCards, deck[index].name).value;
      if index in flipped {
        modalCard := Some(cardData);
        return Shown;
      }
      if currentSpread.None? {
        return Aborted;
      }
      if |selectedCards| >= currentSpread.value.cards {
        return Full;
      }
      selectedCards := selectedCards + [cardData];
      outcome := Appended;
    }

    /** The end of the turn animation: the card is marked turned and shown. */
    method FinishFlip(index: nat)
      requires Valid() && index < |deck|
      modifies this`flipped, this`modalCard
      ensures flipped == old(flipped) + {index}
      ensures modalCard == FindByName(tarotCards, deck[index].name)
      ensures Valid()
    {
      flipped := flipped + {index};
      modalCard := FindByName(tarotCards, deck[index].name);
    }

    /** `updateProgress` reveals the get-reading button once exactly the needed number is chosen. */
    predicate GetReadingOffered()
      reads this
    {
      currentSpread.Some? && |selectedCards| == currentSpread.value.cards
    }

    /**
     * `getReading`: saves the record as the current reading and at the front of the
     * stored history. With an unknown spread `currentSpread.name` throws and nothing is saved.
     */
    method GetReading(date: string) returns (record: Option<Reading>)
      modifies storage`currentReading, storage`taroHistory
      ensures record.Some? <==> currentSpread.Some?
      ensures record.Some? ==>
                record.value == Reading(selectedSpread, currentSpread.value.name, selectedCards, date)
      ensures record.None? ==> unchanged(storage)
      ensures record.Some? ==> storage.currentReading == record
      ensures record.Some? ==>
                storage.taroHistory == Some(NewestFirst(StoredHistory(old(storage.taroHistory)), record.value))
      ensures GetReadingOffered() ==> record.Some? && |record.value.cards| == currentSpread.value.cards
    {
      if currentSpread.None? {
        return None;
      }
      var readingData := Reading(selectedSpread, currentSpread.value.name, selectedCards, date);
      storage.currentReading := Some(readingData);
      var history := StoredHistory(storage.taroHistory);
      history := [readingData] + history;
      if |history| > HistoryLimit {
        history := history[..|history| - 1];
      }
      storage.taroHistory := Some(history);
      record := Some(readingData);
    }
  }

  /** The Vue page of js/components/CardsPage.js over the shared store. */
  class CardsPage {
    const store: Store
    var tarotCards: seq<Card>
    var localSelectedCards: seq<Card>
    var shuffledDeck: seq<Card>
    var flipped: set<nat>
    var fullscreenCard: Option<Card>

    /** `currentSpread`, recomputed from the store's selected spread. */
    function CurrentSpread(): (s: Option<Spread>)
      reads store
      ensures s.Some? <==> store.selectedSpread in KnownSpreads
    {
      SpreadOf(store.selectedSpread)
    }

    /** The `v-if` of the get-reading button: the selected count equals `cardsNeeded`. */
    predicate ShowGetReadingButton()
      reads this, store
    {
      CurrentSpread().Some? && |localSelectedCards| == CurrentSpread().value.cards
    }

    /** `setup`: every ref starts empty. */
    constructor (store: Store)
      ensures this.store == store
      ensures tarotCards == [] && localSelectedCards == [] && shuffledDeck == []
      ensures flipped == {} && fullscreenCard == None
    {
      this.store := store;
      tarotCards := [];
      localSelectedCards := [];
      shuffledDeck := [];
      flipped := {};
      fullscreenCard := None;
    }

    /** `onMounted`: the card data load is started and the selection reset. */
    method Mount()
      modifies this`localSelectedCards
      ensures localSelectedCards == []
    {
      localSelectedCards := [];
    }

    /**
     * The end of `loadCardData`: on success the catalog is replaced and `shuffleCards`
     * keeps the first 22 cards of the shuffle; on failure nothing changes.
     */
    method CardDataLoaded(fetched: Option<seq<Card>>, shuffled: seq<Card>)
      requires fetched.Some? ==> multiset(shuffled) == multiset(fetched.value)
      modifies this`tarotCards, this`shuffledDeck
      ensures fetched.None? ==> tarotCards == old(tarotCards) && shuffledDeck == old(shuffledDeck)
      ensures fetched.Some? ==> tarotCards == fetched.value && shuffledDeck == SlicedDeck(shuffled)
      ensures fetched.Some? ==> multiset(shuffledDeck) <= multiset(tarotCards)
    {
      if fetched.Some? {
        tarotCards := fetched.value;
        shuffledDeck := shuffled[..Min(|shuffled|, DeckSize)];
        DrawnFromCatalog(tarotCards, shuffled, shuffledDeck);
      }
    }

    /** `selectCard(card, index)` on the card shown at `index` of the deck. */
    method SelectCard(index: nat) returns (outcome: SelectOutcome)
      requires index < |shuffledDeck|
      modifies this`localSelectedCards, this`fullscreenCard
      ensures outcome == Shown <==> index in flipped
      ensures outcome == Aborted <==> index !in flipped && CurrentSpread().None?
      ensures outcome == Shown ==> fullscreenCard == Some(shuffledDeck[index])
      ensures outcome != Shown ==> fullscreenCard == old(fullscreenCard)
      ensures CurrentSpread().None? ==> localSelectedCards == old(localSelectedCards)
      ensures CurrentSpread().Some? ==>
                localSelectedCards == Select(old(localSelectedCards), index in flipped,
                                             CurrentSpread().value.cards, shuffledDeck[index])
      ensures outcome == Appended <==> |localSelectedCards| == |old(localSelectedCards)| + 1
    {
      var cardData := shuffledDeck[index];
      if index in flipped {
        fullscreenCard := Some(cardData);
        return Shown;
      }
      var spread := CurrentSpread();
      if spread.None? {
        return Aborted;
      }
      if |localSelectedCards| >= spread.value.cards {
        return Full;
      }
      localSelectedCards := localSelectedCards + [cardData];
      outcome := Appended;
    }

    /** The end of the turn animation: the card is marked turned and shown full screen. */
    method FlipCompleted(index: nat)
      requires index < |shuffledDeck|
      modifies this`flipped, this`fullscreenCard
      ensures flipped == old(flipped) + {index}
      ensures fullscreenCard == Some(shuffledDeck[index])
    {
      flipped := flipped + {index};
      fullscreenCard := Some(shuffledDeck[index]);
    }

    /**
     * `getReading`: hands the record to the store's `setCurrentReading`. With an unknown
     * spread `currentSpread.value.name` throws and nothing is saved.
     */
    method GetReading(date: string) returns (record: Option<Reading>)
      modifies store`currentReading, store`history, store.storage`currentReading, store.storage`taroHistory
      ensures record.Some? <==> CurrentSpread().Some?
      ensures record.Some? ==>
                record.value == Reading(store.selectedSpread, CurrentSpread().value.name, localSelectedCards, date)
      ensures record.None? ==> unchanged(store) && unchanged(store.storage)
      ensures record.Some? ==> store.currentReading == record
      ensures record.Some? ==> store.storage.currentReading == record
      ensures record.Some? ==> store.history == NewestFirst(old(store.history), record.value)
      ensures record.Some? ==> store.storage.taroHistory == Some(store.history)
      ensures ShowGetReadingButton() ==> record.Some? && |record.value.cards| == CurrentSpread().value.cards
    {
      var spread := CurrentSpread();
      if spread.None? {
        return None;
      }
      var readingData := Reading(store.selectedSpread, spread.value.name, localSelectedCards, date);
      store.SetCurrentReading(readingData);
      record := Some(readingData);
    }
  }
}
