/**
 * The reading generator of js/reading.js, written a second time in
 * js/components/ReadingPage.js: the general interpretation, the per-card
 * interpretations and the advice. Both files hold the same logic; it is
 * defined once here. The two random choices of the advice are parameters.
 */
module Interpretation {
  import opened Wrappers
  import opened Text
  import opened Catalog

  // ---------------------------------------------------------------- general interpretation

  /** The 22 names that count as Major Arcana. */
  const MajorArcana: seq<string> :=
    ["Шут", "Маг", "Жрица", "Императрица", "Император", "Жрец", "Влюбленные", "Колесница",
     "Сила", "Отшельник", "Колесо Фортуны", "Справедливость", "Повешенный", "Смерть",
     "Умеренность", "Дьявол", "Башня", "Звезда", "Луна", "Солнце", "Суд", "Мир"]

  predicate IsMajor(c: Card)
  {
    c.name in MajorArcana
  }

  /** `cards.filter(c => MajorArcana.includes(c.name))` */
  function Majors(cards: seq<Card>): (r: seq<Card>)
    ensures |r| <= |cards|
    ensures forall k :: 0 <= k < |r| ==> IsMajor(r[k])
  {
    if |cards| == 0 then []
    else (if IsMajor(cards[0]) then [cards[0]] else []) + Majors(cards[1..])
  }

  /** The filter keeps every Major Arcana card of the draw as often as it is drawn, and nothing else. */
  lemma {:induction false} MajorsKeepsEveryMajor(cards: seq<Card>)
    ensures forall c :: multiset(Majors(cards))[c] == if IsMajor(c) then multiset(cards)[c] else 0
  {
    if |cards| > 0 {
      MajorsKeepsEveryMajor(cards[1..]);
      assert cards == [cards[0]] + cards[1..];
    }
  }

  /** `majorArcana.length > cards.length / 2`, with the division done in floating point. */
  predicate MajorDominated(cards: seq<Card>)
  {
    (|Majors(cards)| as real) > (|cards| as real) / 2.0
  }

  /** The floating-point comparison is "strictly more than half": an exact half is not dominated. */
  lemma MajorDominatedIff(cards: seq<Card>)
    ensures MajorDominated(cards) <==> 2 * |Majors(cards)| > |cards|
  {
  }

  /** The two framing sentences; they part after their common opening words. */
  const FramingLead: string := "Ваш расклад "
  const MajorFraming: string :=
    FramingLead + "указывает " + "на значительные жизненные события и уроки, так как в нем преобладают Старшие Арканы. "
  const NeutralFraming: string :=
    FramingLead + "затрагивает " + "несколько ключевых аспектов вашей жизни. "

  /** `Math.floor(n / 2)`: the index with as many cards before it as after it, or one more before. */
  function CentralIndex(n: nat): (i: nat)
    requires n > 0
    ensures i < n
    ensures 0 <= i - (n - 1 - i) <= 1
  {
    n / 2
  }

  /** The sentence that names the central card, then the concluding card. */
  function Focus(central: Card, concluding: Card): string
  {
    "Центральной темой является '" + central.name + "', что говорит о важности " + Lower(central.meaning)
    + ". Расклад завершается картой '" + concluding.name + "', указывая на исход, связанный с "
    + Lower(concluding.meaning) + "."
  }

  /**
   * `generateGeneralReading(cards)`. An empty draw is excluded: the source reads
   * `.name` of `cards[0]` and `cards[-1]`, which are `undefined`.
   */
  function GeneralReading(cards: seq<Card>): string
    requires |cards| > 0
  {
    var framing := if MajorDominated(cards) then MajorFraming else NeutralFraming;
    framing + Focus(cards[CentralIndex(|cards|)], cards[|cards| - 1])
  }

  /**
   * The general text opens with the Major Arcana framing exactly when strictly more
   * than half the cards are Major Arcana, and with the neutral framing otherwise.
   */
  lemma FramingFollowsMajors(cards: seq<Card>)
    requires |cards| > 0
    ensures MajorFraming <= GeneralReading(cards) <==> 2 * |Majors(cards)| > |cards|
    ensures NeutralFraming <= GeneralReading(cards) <==> 2 * |Majors(cards)| <= |cards|
  {
    var focus := Focus(cards[CentralIndex(|cards|)], cards[|cards| - 1]);
    assert MajorFraming[|FramingLead|] != NeutralFraming[|FramingLead|];
    assert MajorFraming <= MajorFraming + focus;
    assert NeutralFraming <= NeutralFraming + focus;
  }

  /** The general text names the central card, then the concluding card, after its framing. */
  lemma GeneralReadingFocus(cards: seq<Card>)
    requires |cards| > 0
    ensures GeneralReading(cards)[|GeneralReading(cards)| - |Focus(cards[|cards| / 2], cards[|cards| - 1])|..]
         == Focus(cards[|cards| / 2], cards[|cards| - 1])
  {
  }

  /** With a single card the central and the concluding card are that card. */
  lemma SingleCardIsCentralAndConcluding(cards: seq<Card>)
    requires |cards| == 1
    ensures GeneralReading(cards)
         == (if IsMajor(cards[0]) then MajorFraming else NeutralFraming) + Focus(cards[0], cards[0])
  {
    assert Majors(cards) == if IsMajor(cards[0]) then [cards[0]] else [];
  }

  // ---------------------------------------------------------------- per-card interpretations

  /** `Позиция ${i + 1}`, the title of a position that has no label. */
  function SynthesisedLabel(i: nat): string
  {
    "Позиция " + Decimal(i + 1)
  }

  /** Two positions never receive the same synthesised title. */
  lemma SynthesisedLabelsDistinct(i: nat, j: nat)
    ensures SynthesisedLabel(i) == SynthesisedLabel(j) ==> i == j
  {
    var p := "Позиция ";
    assert SynthesisedLabel(i)[|p|..] == Decimal(i + 1);
    assert SynthesisedLabel(j)[|p|..] == Decimal(j + 1);
    DecimalInjective(i + 1, j + 1);
  }

  /**
   * `spreadPositions[index] || Позиция ${index + 1}`, where `spreadPositions` is the
   * spread's label list, or for an unknown spread one synthesised label per card.
   */
  function PositionTitle(spreadType: string, n: nat, i: nat): (title: string)
    requires i < n
    ensures PositionLabels(spreadType).Some? && i < |PositionLabels(spreadType).value|
            ==> title == PositionLabels(spreadType).value[i]
    ensures PositionLabels(spreadType).None? || i >= |PositionLabels(spreadType).value|
            ==> title == SynthesisedLabel(i)
  {
    var table := match PositionLabels(spreadType)
                 case Some(labels) => labels
                 case None => seq(n, k requires 0 <= k => SynthesisedLabel(k));
    if i < |table| && table[i] != "" then table[i] else SynthesisedLabel(i)
  }

  /** `card.full_meaning || card.meaning` */
  function CardInterpretation(card: Card): (text: string)
    ensures text == card.meaning || card.fullMeaning == Some(text)
    ensures card.fullMeaning.Some? && card.fullMeaning.value != "" ==> text == card.fullMeaning.value
    ensures card.fullMeaning.None? || card.fullMeaning.value == "" ==> text == card.meaning
    ensures text == "" ==> card.meaning == ""
  {
    match card.fullMeaning
    case Some(full) => if full != "" then full else card.meaning
    case None => card.meaning
  }

  /** One entry of `generateIndividualCards`: the card (its fields kept) with its title and interpretation. */
  datatype CardReading = CardReading(card: Card, positionTitle: string, interpretation: string)

  function Entry(cards: seq<Card>, spreadType: string, i: nat): CardReading
    requires i < |cards|
  {
    CardReading(cards[i], PositionTitle(spreadType, |cards|, i), CardInterpretation(cards[i]))
  }

  /** The value-returning `generateIndividualCards` of js/components/ReadingPage.js. */
  function IndividualCards(cards: seq<Card>, spreadType: string): (entries: seq<CardReading>)
    ensures |entries| == |cards|
    ensures forall i :: 0 <= i < |cards| ==> entries[i].card == cards[i]
  {
    seq(|cards|, i requires 0 <= i < |cards| => Entry(cards, spreadType, i))
  }

  /**
   * The loop of js/reading.js `generateIndividualCards`, which appends one element per
   * card to a container; the container is the returned sequence.
   */
  method RenderIndividualCards(cards: seq<Card>, spreadType: string) returns (container: seq<CardReading>)
    ensures container == IndividualCards(cards, spreadType)
  {
    container := [];
    var index := 0;
    while index < |cards|
      invariant 0 <= index <= |cards|
      invariant container == IndividualCards(cards, spreadType)[..index]
    {
      var positionTitle := PositionTitle(spreadType, |cards|, index);
      var interpretation := CardInterpretation(cards[index]);
      container := container + [CardReading(cards[index], positionTitle, interpretation)];
      index := index + 1;
    }
  }

  /** A full draw of a known spread is titled with the spread's own labels, in order. */
  lemma FullDrawUsesSpreadLabels(cards: seq<Card>, spreadType: string)
    requires SpreadOf(spreadType).Some? && |cards| == SpreadOf(spreadType).value.cards
    ensures forall i :: 0 <= i < |cards| ==>
              IndividualCards(cards, spreadType)[i].positionTitle == PositionLabels(spreadType).value[i]
  {
    LabelsMatchRequiredCount(spreadType);
  }

  /** An unknown spread type titles every card `Позиция i+1`. */
  lemma UnknownSpreadSynthesisesEveryTitle(cards: seq<Card>, spreadType: string)
    requires SpreadOf(spreadType).None?
    ensures forall i :: 0 <= i < |cards| ==>
              IndividualCards(cards, spreadType)[i].positionTitle == SynthesisedLabel(i)
  {
  }

  /** Labels that are pairwise different and none of which starts like a synthesised one. */
  predicate DistinctLabels(labels: seq<string>)
  {
    && (forall a, b :: 0 <= a < b < |labels| ==> labels[a] != labels[b])
    && (forall a :: 0 <= a < |labels| ==> labels[a] != "" && labels[a][0] != 'П')
  }

  lemma CelticLabelsDistinct() ensures DistinctLabels(PositionLabels("celtic").value) {}
  lemma LoveLabelsDistinct() ensures DistinctLabels(PositionLabels("love").value) {}
  lemma CareerLabelsDistinct() ensures DistinctLabels(PositionLabels("career").value) {}

  /** The labels of a known spread are pairwise different and none starts like a synthesised one. */
  lemma LabelsDistinct(spreadType: string)
    requires SpreadOf(spreadType).Some?
    ensures DistinctLabels(PositionLabels(spreadType).value)
  {
    match spreadType
    case "single" =>
    case "celtic" => CelticLabelsDistinct();
    case "love" => LoveLabelsDistinct();
    case "career" => CareerLabelsDistinct();
  }

  /** Every card of a reading gets its own title, whatever the spread and the number of cards. */
  lemma TitlesDistinct(cards: seq<Card>, spreadType: string, i: nat, j: nat)
    requires i < j < |cards|
    ensures IndividualCards(cards, spreadType)[i].positionTitle != IndividualCards(cards, spreadType)[j].positionTitle
  {
    var ti := IndividualCards(cards, spreadType)[i].positionTitle;
    var tj := IndividualCards(cards, spreadType)[j].positionTitle;
    SynthesisedLabelsDistinct(i, j);
    if PositionLabels(spreadType).Some? {
      var labels := PositionLabels(spreadType).value;
      LabelsDistinct(spreadType);
      if i < |labels| && j >= |labels| {
        assert ti[0] != 'П' && tj[0] == 'П';
      }
    }
  }

  // ---------------------------------------------------------------- advice

  const PositiveKeywords: seq<string> := ["успех", "радость", "надежда", "сила", "гармония", "начало", "любовь"]
  const ChallengingKeywords: seq<string> := ["разрушение", "иллюзия", "зависимость", "жертва", "конец", "препятствие"]

  /** `keywords.some(kw => text.includes(kw))` */
  predicate AnyKeyword(text: string, keywords: seq<string>)
  {
    exists k :: 0 <= k < |keywords| && Contains(text, keywords[k])
  }

  /** The test applied to one card: its lower-cased short meaning holds one of the keywords. */
  predicate Mentions(card: Card, keywords: seq<string>)
  {
    AnyKeyword(Lower(card.meaning), keywords)
  }

  /** The score the loop accumulates: the number of cards that mention one of the keywords. */
  function Hits(cards: seq<Card>, keywords: seq<string>): (count: nat)
    ensures count <= |cards|
  {
    if |cards| == 0 then 0
    else Hits(cards[..|cards| - 1], keywords) + (if Mentions(cards[|cards| - 1], keywords) then 1 else 0)
  }

  /** A score is 0 exactly when no card matches, and the draw size exactly when every card matches. */
  lemma {:induction false} HitsExtremes(cards: seq<Card>, keywords: seq<string>)
    ensures Hits(cards, keywords) == 0 <==> forall i :: 0 <= i < |cards| ==> !Mentions(cards[i], keywords)
    ensures Hits(cards, keywords) == |cards| <==> forall i :: 0 <= i < |cards| ==> Mentions(cards[i], keywords)
  {
    if |cards| > 0 {
      var init := cards[..|cards| - 1];
      HitsExtremes(init, keywords);
      assert forall i :: 0 <= i < |init| ==> init[i] == cards[i];
    }
  }

  /** The three base paragraphs of the advice. */
  datatype Tone = Favourable | Cautionary | Balanced

  /** The three-way comparison of the two scores. */
  function ToneOf(positive: nat, challenging: nat): (t: Tone)
    ensures t == Favourable <==> positive > challenging
    ensures t == Cautionary <==> challenging > positive
    ensures t == Balanced <==> positive == challenging
  {
    if positive > challenging then Favourable
    else if challenging > positive then Cautionary
    else Balanced
  }

  /** The three base paragraphs, each written as its first word and the rest. */
  const FavourableAdvice: string :=
    "Расклад " + "в целом благоприятен. Карты советуют вам действовать смело и с оптимизмом. "
    + "Доверяйте своим силам и идите к цели, сейчас для этого подходящее время."
  const CautionaryAdvice: string :=
    "Карты " + "указывают на наличие трудностей. Вам рекомендуется проявить осторожность, терпение и мудрость. "
    + "Не торопите события и обдумайте каждый шаг. Это время для внутренней работы и преодоления препятствий."
  const BalancedAdvice: string :=
    "Ситуация " + "неоднозначна и требует баланса. Сочетайте решительные действия с обдуманностью. "
    + "Прислушивайтесь к своей интуиции, но не забывайте о логике. Гармония между этими аспектами приведет вас к успеху."

  function Paragraph(t: Tone): string
  {
    match t
    case Favourable => FavourableAdvice
    case Cautionary => CautionaryAdvice
    case Balanced => BalancedAdvice
  }

  /** `meaning.split(',')[1] || meaning.split(',')[0]`: the second segment, or the first when it is missing or empty. */
  function KeyPhrase(meaning: string): (q: string)
    ensures q in Split(meaning, ',')
    ensures ',' !in q
    ensures |Split(meaning, ',')| >= 2 && Split(meaning, ',')[1] != "" ==> q == Split(meaning, ',')[1]
    ensures !(|Split(meaning, ',')| >= 2 && Split(meaning, ',')[1] != "") ==> q == Split(meaning, ',')[0]
  {
    var parts := Split(meaning, ',');
    if |parts| > 1 && parts[1] != "" then parts[1] else parts[0]
  }

  /** A card name between single quotes, as both closing sentences write it. */
  function Quote(name: string): string
  {
    "'" + name + "'"
  }

  /** The words before the quoted card name in the two closing sentences. */
  function SnippetLead(which: nat): string
  {
    if which == 0 then "Особенно обратите внимание на карту " else "Ключевой совет дает карта "
  }

  /** The words after the quoted card name: the first segment lower-cased, or the key phrase. */
  function SnippetTail(card: Card, which: nat): string
  {
    if which == 0 then ", которая призывает к " + Lower(Split(card.meaning, ',')[0]) + "."
    else ": " + KeyPhrase(card.meaning) + "."
  }

  /** The two closing sentences; `which` is the injected `Math.floor(Math.random() * 2)`. */
  function Snippet(card: Card, which: nat): string
    requires which < 2
  {
    SnippetLead(which) + Quote(card.name) + SnippetTail(card, which)
  }

  /**
   * The text `generateAdvice` returns, with `cardPick` the injected
   * `Math.floor(Math.random() * cards.length)`; a pick exists only for a non-empty draw.
   */
  function AdviceText(cards: seq<Card>, cardPick: nat, snippetPick: nat): string
    requires cardPick < |cards| && snippetPick < 2
  {
    Advice(DrawTone(cards), cards[cardPick], snippetPick)
  }

  /** The tone the two keyword scores of a draw select. */
  function DrawTone(cards: seq<Card>): (t: Tone)
    ensures t == Favourable <==> Hits(cards, PositiveKeywords) > Hits(cards, ChallengingKeywords)
    ensures t == Cautionary <==> Hits(cards, ChallengingKeywords) > Hits(cards, PositiveKeywords)
    ensures t == Balanced <==> Hits(cards, PositiveKeywords) == Hits(cards, ChallengingKeywords)
  {
    ToneOf(Hits(cards, PositiveKeywords), Hits(cards, ChallengingKeywords))
  }

  /** The base paragraph of `tone`, a space, and the picked closing sentence about `card`. */
  function Advice(tone: Tone, card: Card, snippetPick: nat): string
    requires snippetPick < 2
  {
    Paragraph(tone) + " " + Snippet(card, snippetPick)
  }

  /**
   * The forEach loop of `generateAdvice`: one pass over the draw, bumping each score
   * at most once per card. `generateAdvice` passes the two keyword lists above.
   */
  method CountKeywordHits(cards: seq<Card>, positiveKeywords: seq<string>, challengingKeywords: seq<string>)
    returns (positiveScore: nat, challengingScore: nat)
    ensures positiveScore == Hits(cards, positiveKeywords)
    ensures challengingScore == Hits(cards, challengingKeywords)
  {
    positiveScore, challengingScore := 0, 0;
    var i := 0;
    while i < |cards|
      invariant 0 <= i <= |cards|
      invariant positiveScore == Hits(cards[..i], positiveKeywords)
      invariant challengingScore == Hits(cards[..i], challengingKeywords)
    {
      var meaning := Lower(cards[i].meaning);
      if AnyKeyword(meaning, positiveKeywords) {
        positiveScore := positiveScore + 1;
      }
      if AnyKeyword(meaning, challengingKeywords) {
        challengingScore := challengingScore + 1;
      }
      assert cards[..i + 1][..i] == cards[..i];
      i := i + 1;
    }
    assert cards[..i] == cards;
  }

  /** `generateAdvice`: the scores pick the base paragraph, then the picked snippet is appended. */
  method GenerateAdvice(cards: seq<Card>, cardPick: nat, snippetPick: nat) returns (advice: string)
    requires cardPick < |cards| && snippetPick < 2
    ensures advice == AdviceText(cards, cardPick, snippetPick)
  {
    advice := "";
    var positiveScore, challengingScore := CountKeywordHits(cards, PositiveKeywords, ChallengingKeywords);
    if positiveScore > challengingScore {
      advice := Paragraph(Favourable);
    } else if challengingScore > positiveScore {
      advice := Paragraph(Cautionary);
    } else {
      advice := Paragraph(Balanced);
    }
    advice := advice + " " + Snippet(cards[cardPick], snippetPick);
  }

  lemma FavourableOpening() ensures FavourableAdvice[0] == 'Р' {}
  lemma CautionaryOpening() ensures CautionaryAdvice[0] == 'К' {}
  lemma BalancedOpening() ensures BalancedAdvice[0] == 'С' {}

  /** A text that opens with a base paragraph tells which paragraph it is. */
  lemma OpeningIdentifiesTone(t: Tone, card: Card, snippetPick: nat)
    requires snippetPick < 2
    ensures forall u :: Paragraph(u) <= Advice(t, card, snippetPick) <==> u == t
  {
    var rest := Snippet(card, snippetPick);
    FavourableOpening();
    CautionaryOpening();
    BalancedOpening();
    assert (Paragraph(t) + " " + rest)[0] == Paragraph(t)[0];
  }

  /** The advice opens with the paragraph of the tone the two scores select, and with no other. */
  lemma AdviceOpensWithTone(cards: seq<Card>, cardPick: nat, snippetPick: nat)
    requires cardPick < |cards| && snippetPick < 2
    ensures forall t :: Paragraph(t) <= AdviceText(cards, cardPick, snippetPick) <==> t == DrawTone(cards)
  {
    OpeningIdentifiesTone(DrawTone(cards), cards[cardPick], snippetPick);
  }

  /** A quoted name placed anywhere in a text is found in it. */
  lemma QuoteFound(opening: string, lead: string, name: string, tail: string)
    ensures Contains(opening + (lead + Quote(name) + tail), Quote(name))
  {
    var a := opening + (lead + Quote(name) + tail);
    var at := |opening| + |lead|;
    assert a[at..at + |Quote(name)|] == Quote(name);
    assert OccursAt(a, Quote(name), at);
    ContainsIff(a, Quote(name));
  }

  /** The closing sentence quotes the name of the picked card of the draw. */
  lemma AdviceNamesPickedCard(cards: seq<Card>, cardPick: nat, snippetPick: nat)
    requires cardPick < |cards| && snippetPick < 2
    ensures Contains(AdviceText(cards, cardPick, snippetPick), Quote(cards[cardPick].name))
  {
    var card := cards[cardPick];
    var tone := ToneOf(Hits(cards, PositiveKeywords), Hits(cards, ChallengingKeywords));
    QuoteFound(Paragraph(tone) + " ", SnippetLead(snippetPick), card.name, SnippetTail(card, snippetPick));
  }
}
