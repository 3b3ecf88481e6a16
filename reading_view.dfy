/**
 * The page-level behaviour of js/components/ReadingPage.js: the three outputs it
 * fills from the current reading of the store, the watch that either fills them or
 * leaves for the home page, and the text the share button hands on.
 */
module ReadingView {
  import opened Wrappers
  import opened Text
  import opened Catalog
  import opened Interpretation
  import opened Storage

  /** Scaling a value below 1 by a positive length stays below the length. */
  lemma ScaledBelow(random: real, length: real)
    requires 0.0 <= random < 1.0 && 0.0 < length
    ensures 0.0 <= random * length < length
  {
    assert length - random * length == (1.0 - random) * length;
  }

  /** `Math.floor(random * n)` for a `random` drawn from [0, 1): always an index of an n-element list. */
  function RandomIndex(random: real, n: nat): (i: nat)
    requires 0.0 <= random < 1.0 && n > 0
    ensures i < n
  {
    var x := random * (n as real);
    ScaledBelow(random, n as real);
    assert x.Floor as real <= x < n as real;
    assert x.Floor < n;
    x.Floor
  }

  /** `cards.map(card => card.name)` */
  function Names(cards: seq<Card>): (names: seq<string>)
    ensures |names| == |cards|
    ensures forall i :: 0 <= i < |cards| ==> names[i] == cards[i].name
  {
    seq(|cards|, i requires 0 <= i < |cards| => cards[i].name)
  }

  /** The opening of the share text, up to the card list. */
  function ShareHeading(spreadName: string): string
  {
    "Моё таро-предсказание (" + spreadName + "): "
  }

  /** `shareText` of `shareReading`: the heading, then the card names joined by ", ". */
  function ShareText(reading: Reading): (text: string)
    ensures ShareHeading(reading.spreadName) <= text
    ensures |reading.cards| == 0 ==> text == ShareHeading(reading.spreadName)
  {
    ShareHeading(reading.spreadName) + Join(Names(reading.cards), ", ")
  }

  /** Every name after the first, with the space that follows each comma of the list. */
  function SpaceLed(names: seq<string>): (parts: seq<string>)
    ensures |parts| == |names|
    ensures forall i :: 0 <= i < |names| ==> parts[i] == " " + names[i]
  {
    seq(|names|, i requires 0 <= i < |names| => " " + names[i])
  }

  lemma {:induction false} JoinWithSpace(names: seq<string>)
    requires |names| >= 1
    ensures Join(names, ", ") == Join([names[0]] + SpaceLed(names[1..]), ",")
  {
    if |names| > 1 {
      var rest := names[1..];
      var parts := [names[0]] + SpaceLed(rest);
      assert parts[1..] == SpaceLed(rest);
      if |rest| == 1 {
        assert Join(names, ", ") == names[0] + ", " + rest[0];
        assert Join(parts, ",") == names[0] + "," + (" " + rest[0]);
      } else {
        JoinWithSpace(rest);
        var inner := [rest[0]] + SpaceLed(rest[1..]);
        assert inner[1..] == SpaceLed(rest[1..]);
        assert SpaceLed(rest)[1..] == SpaceLed(rest[1..]);
        assert Join(names, ", ") == names[0] + ", " + (rest[0] + "," + Join(SpaceLed(rest[1..]), ","));
        assert Join(parts, ",") == names[0] + "," + ((" " + rest[0]) + "," + Join(SpaceLed(rest[1..]), ","));
      }
    }
  }

  /**
   * A reader of the share text can split its card list at the commas and get the
   * names back in draw order, each after the first with its leading space, as long
   * as no card name holds a comma.
   */
  lemma ShareListSplitsIntoNames(cards: seq<Card>)
    requires |cards| >= 1
    requires forall i :: 0 <= i < |cards| ==> ',' !in cards[i].name
    ensures Split(Join(Names(cards), ", "), ',') == [cards[0].name] + SpaceLed(Names(cards)[1..])
  {
    var names := Names(cards);
    JoinWithSpace(names);
    var parts := [names[0]] + SpaceLed(names[1..]);
    forall k | 0 <= k < |parts| ensures ',' !in parts[k] {
      if k > 0 {
        assert parts[k] == " " + cards[k].name;
      }
    }
    SplitJoin(parts, ',');
  }

  /** The share text of a reading opens with its heading and names its first card right after it. */
  lemma ShareTextOpensWithFirstCard(reading: Reading)
    requires |reading.cards| >= 1
    ensures ShareHeading(reading.spreadName) + reading.cards[0].name <= ShareText(reading)
  {
    var names := Names(reading.cards);
    if |names| > 1 {
      assert Join(names, ", ") == names[0] + ", " + Join(names[1..], ", ");
    }
  }

  /** The reading page: its three outputs and the store it reads the current reading from. */
  class ReadingPage {
    var generalInterpretation: string
    var individualInterpretations: seq<CardReading>
    var advice: string
    const store: Store

    constructor (store: Store)
      ensures this.store == store
      ensures generalInterpretation == "" && individualInterpretations == [] && advice == ""
    {
      this.store := store;
      generalInterpretation := "";
      individualInterpretations := [];
      advice := "";
    }

    /**
     * `generateReading`. Without a current reading nothing changes. An empty draw also
     * leaves the outputs as they were: the source throws on `cards[0].name` before
     * the first assignment. `cardRandom` and `snippetRandom` are the two `Math.random()`
     * values the advice draws.
     */
    method GenerateReading(cardRandom: real, snippetRandom: real)
      requires 0.0 <= cardRandom < 1.0 && 0.0 <= snippetRandom < 1.0
      modifies this
      ensures store.currentReading.None? || |store.currentReading.value.cards| == 0 ==> unchanged(this)
      ensures store.currentReading.Some? && |store.currentReading.value.cards| > 0 ==>
                var cards := store.currentReading.value.cards;
                && generalInterpretation == GeneralReading(cards)
                && individualInterpretations == IndividualCards(cards, store.currentReading.value.spreadType)
                && advice == AdviceText(cards, RandomIndex(cardRandom, |cards|), RandomIndex(snippetRandom, 2))
    {
      if store.currentReading.None? {
        return;
      }
      var reading := store.currentReading.value;
      var cards := reading.cards;
      if |cards| == 0 {
        return;
      }
      var general := GeneralReading(cards);
      var entries := IndividualCards(cards, reading.spreadType);
      var text := GenerateAdvice(cards, RandomIndex(cardRandom, |cards|), RandomIndex(snippetRandom, 2));
      generalInterpretation, individualInterpretations, advice := general, entries, text;
    }

    /**
     * The watch on the current reading: with a reading it fills the page and stays;
     * without one it leaves for "/" and the outputs stay as they were.
     */
    method OnCurrentReadingChange(cardRandom: real, snippetRandom: real) returns (navigate: Option<string>)
      requires 0.0 <= cardRandom < 1.0 && 0.0 <= snippetRandom < 1.0
      modifies this
      ensures navigate == Some("/") <==> store.currentReading.None?
      ensures navigate == None <==> store.currentReading.Some?
      ensures store.currentReading.None? || |store.currentReading.value.cards| == 0 ==> unchanged(this)
      ensures store.currentReading.Some? && |store.currentReading.value.cards| > 0 ==>
                var cards := store.currentReading.value.cards;
                && generalInterpretation == GeneralReading(cards)
                && individualInterpretations == IndividualCards(cards, store.currentReading.value.spreadType)
                && advice == AdviceText(cards, RandomIndex(cardRandom, |cards|), RandomIndex(snippetRandom, 2))
    {
      if store.currentReading.Some? {
        GenerateReading(cardRandom, snippetRandom);
        navigate := None;
      } else {
        navigate := Some("/");
      }
    }
  }
}
