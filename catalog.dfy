/**
 * The static data of the application: card records, the spread table shared by
 * js/cards.js and js/components/CardsPage.js, the position labels of the
 * reading pages, and the reading record that the pages save.
 */
module Catalog {
  import opened Wrappers

  /** A card of `data/cards.json`; `fullMeaning` is the optional `full_meaning` field. */
  datatype Card = Card(name: string, image: string, meaning: string, fullMeaning: Option<string>)

  /** An entry of the `spreads` table: display name and number of cards to draw. */
  datatype Spread = Spread(name: string, cards: nat)

  /** A saved reading: `{ spreadType, spreadName, cards, date }`; the date is an opaque timestamp text. */
  datatype Reading = Reading(spreadType: string, spreadName: string, cards: seq<Card>, date: string)

  const KnownSpreads: seq<string> := ["single", "celtic", "love", "career"]

  /**
   * `spreads[id]` for the identifiers the application stores: the spread of a known
   * identifier, `undefined` for any other text that is not the name of an
   * `Object.prototype` member.
   */
  function SpreadOf(id: string): (s: Option<Spread>)
    ensures s.Some? <==> id in KnownSpreads
    ensures s.Some? ==> s.value.cards >= 1
  {
    match id
    case "single" => Some(Spread("Карта дня", 1))
    case "celtic" => Some(Spread("Кельтский крест", 10))
    case "love" => Some(Spread("Отношения", 6))
    case "career" => Some(Spread("Карьера", 7))
    case _ => None
  }

  /**
   * `positions[spreadType]` of the reading pages. Every other key, including the
   * inherited ones such as "toString", has no label at index i, so `None` stands for all of them.
   */
  function PositionLabels(spreadType: string): (labels: Option<seq<string>>)
    ensures labels.Some? <==> SpreadOf(spreadType).Some?
    ensures labels.Some? ==> forall k :: 0 <= k < |labels.value| ==> labels.value[k] != ""
  {
    match spreadType
    case "single" => Some(["Карта дня"])
    case "celtic" => Some(["1. Настоящий момент", "2. Препятствие", "3. Основа ситуации",
                           "4. Недавнее прошлое", "5. Возможный исход", "6. Ближайшее будущее",
                           "7. Ваше отношение", "8. Внешние влияния", "9. Надежды и страхи",
                           "10. Окончательный итог"])
    case "love" => Some(["1. Ваша роль", "2. Роль партнера", "3. Суть отношений",
                         "4. Что укрепляет союз", "5. Что ослабляет союз", "6. Перспектива"])
    case "career" => Some(["1. Текущая позиция", "2. Ваши амбиции", "3. Препятствия",
                           "4. Ваши сильные стороны", "5. Что нужно развить", "6. Следующий шаг",
                           "7. Потенциальный результат"])
    case _ => None
  }

  /** Every known spread has exactly as many position labels as it requires cards. */
  lemma LabelsMatchRequiredCount(spreadType: string)
    requires SpreadOf(spreadType).Some?
    ensures |PositionLabels(spreadType).value| == SpreadOf(spreadType).value.cards
  {
  }

  /** `catalog.find(card => card.name === name)`: the first card with that name. */
  function FindByName(catalog: seq<Card>, name: string): (r: Option<Card>)
    ensures r.Some? <==> exists k :: 0 <= k < |catalog| && catalog[k].name == name
    ensures r.Some? ==> r.value.name == name
    ensures r.Some? ==> exists k :: 0 <= k < |catalog| && catalog[k] == r.value &&
                                    forall j :: 0 <= j < k ==> catalog[j].name != name
  {
    if |catalog| == 0 then None
    else if catalog[0].name == name then Some(catalog[0])
    else
      var r := FindByName(catalog[1..], name);
      assert forall k :: 1 <= k < |catalog| ==> catalog[k] == catalog[1..][k - 1];
      r
  }
}
