# Tarot reading core, modelled in Dafny

The application is a small tarot-reading web app. A user takes three steps:
- choose a spread: "Карта дня" (one card), "Кельтский крест" (ten), "Отношения" (six) or "Карьера" (seven);
- turn cards from a shuffled deck until the spread is full;
- receive a reading, which is saved in a history of the ten newest readings and summarised on a history page.

This project models the logic behind those steps:

- **Catalog** (`catalog.dfy`): cards, spreads and readings as values. It also holds:
  - the table of known spreads with their required card counts;
  - the position labels of each spread;
  - the lookup of a card by name.
- **Text** (`text.dfy`): the few string operations the reading texts rely on.
  - lower-casing;
  - substring search (`includes`);
  - `split(',')` and `join`;
  - the decimal rendering of position numbers.
- **Interpretation** (`interpretation.dfy`): the reading generator.
  - The general text is framed by Major-Arcana dominance and names the central and the concluding card.
  - Each card gets a position title and an interpretation.
  - The advice is one of three paragraphs, chosen by counting keyword hits, followed by a snippet about one card of the draw.
  - The keyword counting is an imperative loop.
- **Storage** (`storage.dfy`): the browser's `localStorage` and the reactive store. The store keeps:
  - the history, newest first and capped at ten;
  - the current reading;
  - the selected spread, with its defaults.
- **Selection** (`selection.dfy`): the two card-selection pages.
  - The classic page deals 22 cards from a shuffled catalog, or none when the catalog is shorter.
  - The component page takes the first `min(n, 22)` cards of the shuffled catalog.
  - Both pages append selected cards until the spread is full and build the reading record.
- **ReadingView** (`reading_view.dfy`): the reading page.
  - It fills its three outputs from the current reading.
  - It leaves for the home page when there is no current reading.
  - It builds the share text.
- **HistoryStats** (`history_stats.dfy`): the history page.
  - The favourite spread is counted per name and reduced with ties going to the later key, then abbreviated.
  - The days-since indicator shows a dash for an empty history.
  - The page clears the history and views a past reading again.
  - The total is the history's length; `CountsAddUpToTotal` ties the per-name counts to it.

The reading logic appears twice in the original:
- as DOM-writing functions in `js/reading.js`;
- as value-returning functions in `js/components/ReadingPage.js`.

The two copies compute the same texts, so they are modelled once. The table cites both.

The only difference is `generateIndividualCards`: the DOM version appends each entry to a container instead of returning a list. `Interpretation.RenderIndividualCards` models it as a loop that appends to a sequence.

Randomness is passed in as parameters:
- the shuffle is any permutation of the catalog;
- each `Math.random()` value is a real number in [0, 1).

Where the code throws a `TypeError` (an empty draw, or a spread type missing from the spread table), the model leaves the state as it was, because the code stops before its first write.

## Model

| member | source | states |
|---|---|---|
| Text.Lower | js/reading.js:133 | lower-casing keeps the length of a meaning |
| Text.LowerIdempotent | js/components/ReadingPage.js:58 | lower-casing an already lower-cased meaning changes nothing |
| Text.ContainsIff | js/components/ReadingPage.js:59-60 | `includes` holds exactly when the keyword occurs at some position of the text |
| Text.Contains | js/reading.js:134-135 | `includes`, searched from the left; `ContainsIff` proves it equal to "occurs at some index" |
| Text.MatchSurvivesLowering | js/reading.js:133-135 | a lower-case keyword found in a meaning is still found after the meaning is lower-cased |
| Text.Split | js/reading.js:148-149 | `split(',')` gives at least one part and no part contains the separator |
| Text.JoinSplit | js/reading.js:148-149 | joining the parts of a split with the separator gives back the original text |
| Text.SplitWithoutSeparator | js/reading.js:149 | a text without a comma splits into itself alone, so the second segment is missing |
| Text.SplitAtSeparator | js/reading.js:148-149 | the first part of a split is the text before the first separator |
| Text.Join | js/components/ReadingPage.js:95 | `join`: the parts with the separator between each two; `JoinSplit` and `SplitJoin` prove it the inverse of `Split` |
| Text.SplitJoin | js/components/ReadingPage.js:95 | joining separator-free parts and splitting again gives back the parts |
| Text.Decimal | js/reading.js:104 | the rendering of a position number is a non-empty string of digits |
| Text.ParseDecimalInverts | js/reading.js:104 | the decimal rendering of a number reads back as that number |
| Text.DecimalInjective | js/components/ReadingPage.js:46 | distinct numbers render as distinct digit strings |
| Catalog.SpreadOf | js/cards.js:2-7 | a spread type is found exactly when it is single, celtic, love or career, and every spread needs at least one card |
| Catalog.PositionLabels | js/components/ReadingPage.js:37-43 | labels exist exactly for the known spreads, and none is empty |
| Catalog.LabelsMatchRequiredCount | js/components/CardsPage.js:5-10 | each known spread has exactly as many position labels as it requires cards |
| Catalog.FindByName | js/cards.js:109 | `find` gives a card exactly when one has the name, and gives the first such card |
| Interpretation.Majors | js/reading.js:75 | the filter keeps only cards whose name is one of the 22 Major Arcana and is no longer than the draw |
| Interpretation.MajorsKeepsEveryMajor | js/components/ReadingPage.js:26 | each Major Arcana card keeps its multiplicity in the filter and every other card is dropped |
| Interpretation.MajorDominated | js/reading.js:77 | the comparison `majors > n / 2` in floating point; `MajorDominatedIff` states it as `2 * majors > n` |
| Interpretation.MajorDominatedIff | js/reading.js:77 | `majors > n / 2` with JavaScript division holds exactly when twice the majors exceed the draw size |
| Interpretation.CentralIndex | js/reading.js:81 | the central index lies in the draw and has as many cards after it as before it, or one fewer |
| Interpretation.GeneralReading | js/reading.js:74-85 | the framing sentence, then the sentence naming the central and the concluding card; `FramingFollowsMajors`, `GeneralReadingFocus` and `SingleCardIsCentralAndConcluding` state what it says |
| Interpretation.FramingFollowsMajors | js/components/ReadingPage.js:27-30 | the text opens with the Major-Arcana framing exactly when majors are more than half the draw, and with the neutral framing otherwise, including a tie at half |
| Interpretation.GeneralReadingFocus | js/reading.js:81-84 | the general text ends with the sentence naming `cards[n/2]` and then `cards[n-1]` |
| Interpretation.SingleCardIsCentralAndConcluding | js/components/ReadingPage.js:31-33 | with one card, that card is both the central and the concluding card |
| Interpretation.SynthesisedLabelsDistinct | js/reading.js:98 | the synthesised labels `Позиция i+1` of different positions differ |
| Interpretation.PositionTitle | js/reading.js:98-104 | the title is the spread's i-th label when the spread is known and has one, and `Позиция i+1` otherwise |
| Interpretation.CardInterpretation | js/reading.js:105 | the interpretation is the full meaning when it is present and non-empty, and the meaning otherwise |
| Interpretation.IndividualCards | js/components/ReadingPage.js:44-48 | one entry per card, in draw order, each carrying its card |
| Interpretation.RenderIndividualCards | js/reading.js:100-121 | the loop appends exactly the entries `IndividualCards` gives |
| Interpretation.FullDrawUsesSpreadLabels | js/components/ReadingPage.js:38-43 | a full draw of a known spread is titled with the spread's own labels, in order |
| Interpretation.UnknownSpreadSynthesisesEveryTitle | js/components/ReadingPage.js:43-46 | an unknown spread type titles card i `Позиция i+1` |
| Interpretation.LabelsDistinct | js/components/ReadingPage.js:38-41 | the labels of each known spread are pairwise distinct and none looks like a synthesised label |
| Interpretation.TitlesDistinct | js/components/ReadingPage.js:43-46 | no two cards of a reading share a position title |
| Interpretation.Hits | js/reading.js:132-136 | a score counts each card at most once, so it is at most the draw size |
| Interpretation.HitsExtremes | js/reading.js:134-135 | a score is zero exactly when no card mentions a keyword, and equals the draw size exactly when every card does |
| Interpretation.ToneOf | js/reading.js:138-144 | favourable exactly when positive exceeds challenging, cautionary exactly when challenging exceeds positive, balanced exactly on a tie |
| Interpretation.KeyPhrase | js/reading.js:149 | the quoted phrase is one comma-free segment of the meaning: the second segment when it is non-empty, and the first when the second is missing or empty |
| Interpretation.Snippet | js/reading.js:147-150 | the two closing sentences about the picked card; `AdviceNamesPickedCard` proves that either quotes the card's name |
| Interpretation.DrawTone | js/components/ReadingPage.js:57-68 | the tone is favourable exactly when more cards hit a positive keyword than a challenging one, cautionary exactly in the reverse case, balanced exactly on a tie |
| Interpretation.Advice | js/reading.js:151-153 | the paragraph of the tone, a space, then the picked closing sentence; `OpeningIdentifiesTone` proves the opening determines the tone |
| Interpretation.AdviceText | js/reading.js:124-154 | the advice of a draw for an injected card and snippet pick; `AdviceOpensWithTone` and `AdviceNamesPickedCard` state what it says |
| Interpretation.CountKeywordHits | js/components/ReadingPage.js:55-61 | the loop's two counters end equal to the number of cards hitting each keyword list |
| Interpretation.GenerateAdvice | js/components/ReadingPage.js:51-75 | the imperative advice builder returns exactly the advice text for the picked card and snippet |
| Interpretation.OpeningIdentifiesTone | js/components/ReadingPage.js:62-68 | an advice text opens with exactly one of the three paragraphs, the one of its tone |
| Interpretation.AdviceOpensWithTone | js/reading.js:138-151 | the advice opens with the paragraph chosen by comparing the two scores, and with no other |
| Interpretation.AdviceNamesPickedCard | js/reading.js:146-151 | whichever snippet is picked, the advice quotes the name of the picked card of the draw |
| ReadingView.RandomIndex | js/reading.js:146 | `Math.floor(Math.random() * n)` is always a valid index of an n-element list |
| ReadingView.Names | js/components/ReadingPage.js:95 | the name list has one entry per card, in draw order |
| ReadingView.ShareText | js/components/ReadingPage.js:95 | the share text opens with the heading naming the spread, and is only the heading for an empty draw |
| ReadingView.ShareListSplitsIntoNames | js/components/ReadingPage.js:95 | splitting the share list at commas gives the card names in draw order, each after the first led by its space, when no name holds a comma |
| ReadingView.ShareTextOpensWithFirstCard | js/components/ReadingPage.js:95 | the share text opens with `Моё таро-предсказание (<spread name>): ` followed by the first card's name |
| ReadingView.ReadingPage.constructor | js/components/ReadingPage.js:13-15 | the three outputs start empty |
| ReadingView.ReadingPage.GenerateReading | js/components/ReadingPage.js:17-23 | without a current reading or with an empty draw nothing changes; otherwise the outputs are the general text, the card entries and the advice for the drawn pick |
| ReadingView.ReadingPage.OnCurrentReadingChange | js/components/ReadingPage.js:107-113 | with no current reading the page goes to "/" and changes nothing; with one it stays; an empty draw changes nothing, and any other draw sets the general text, the card entries and the advice for the drawn pick |
| Storage.LocalStorage.constructor | js/store.js:39-45 | the storage slots hold the values found at page load, `None` for an absent key |
| Storage.StoredHistory | js/store.js:10 | an absent history reads as empty and a stored one as itself |
| Storage.SpreadOrDefault | js/store.js:41 | an absent or empty selected spread reads as "single", and any other stored value as itself |
| Storage.NewestFirst | js/store.js:27-30 | after an add the new reading is first, the rest is the old history in order, and only the oldest entry is dropped on overflow |
| Storage.NewestFirstBounded | js/store.js:27-30 | a history of at most ten grows to `min(old + 1, 10)` entries |
| Storage.FullHistoryDropsOldest | js/store.js:28-30 | adding to a full history keeps the nine newest old readings |
| Storage.AddAllKeepsNewest | js/store.js:22-31 | any run of adds leaves the newest readings first, then the old history, cut to ten |
| Storage.Store.constructor | js/store.js:3-7 | the initial state is the stored history or `[]`, the stored spread or "single", and the stored current reading or none |
| Storage.Store.LoadHistory | js/store.js:9-11 | the history becomes the stored history, or `[]` when none is stored |
| Storage.Store.SelectSpread | js/store.js:17-20 | only the selected spread changes, in memory and in storage |
| Storage.Store.SetCurrentReading | js/store.js:22-31 | the reading becomes current in memory and in storage, it is added newest-first, the bound of ten is kept, and the stored history equals the new history |
| Storage.Store.ClearHistory | js/store.js:34-37 | the history is empty in memory and in storage |
| Selection.Select | js/cards.js:111-123 | a click either leaves the selection as it was or appends the card at the end; it appends exactly when the card is not flipped and the spread is not full, so the selection never exceeds the needed count |
| Selection.SelectAllTakesFirstUnturned | js/components/CardsPage.js:44-53 | any run of clicks selects the cards of the unflipped clicks in order, up to the needed count |
| Selection.SelectAllBounded | js/components/CardsPage.js:49-53 | however many clicks arrive, the selection never exceeds the needed count |
| Selection.Dealt | js/cards.js:56-61 | a catalog under 22 cards deals nothing, otherwise exactly the first 22 shuffled cards |
| Selection.SlicedDeck | js/components/CardsPage.js:38 | the deck is the first `min(n, 22)` shuffled cards |
| Selection.DrawnFromCatalog | js/components/CardsPage.js:38 | a deck cut from a shuffle of the catalog holds only catalog cards, none more often than the catalog |
| Selection.ClassicCardsPage.constructor | js/cards.js:9-12 | the page starts with no cards, the stored spread or "single", and that spread's entry of the table |
| Selection.ClassicCardsPage.LoadCardData | js/cards.js:34-42 | a successful fetch replaces the catalog and a failed one leaves it |
| Selection.ClassicCardsPage.GenerateCards | js/cards.js:49-80 | the loop deals exactly the cards `Dealt` gives and no card is flipped |
| Selection.ClassicCardsPage.SelectCard | js/cards.js:107-140 | a flipped card is shown and not selected; an unknown spread aborts; otherwise the card is selected by the selection rule |
| Selection.ClassicCardsPage.FinishFlip | js/cards.js:131-134 | the animation's end marks the card flipped and shows it |
| Selection.ClassicCardsPage.GetReadingOffered | js/cards.js:150-151 | the button is revealed exactly when the selection has the spread's card count; `GetReading` proves the record is then complete |
| Selection.ClassicCardsPage.GetReading | js/cards.js:184-203 | the record carries the spread id, the spread name and the selection; it becomes current in storage and is added newest-first to the stored history; an unknown spread writes nothing |
| Selection.CardsPage.CurrentSpread | js/components/CardsPage.js:18 | the current spread exists exactly when the selected spread type is known |
| Selection.CardsPage.ShowGetReadingButton | js/components/CardsPage.js:182 | the button shows exactly when the selected count equals the needed count; `GetReading` proves the record is then complete |
| Selection.CardsPage.constructor | js/components/CardsPage.js:17-21 | the page starts with no cards, no selection, an empty deck and nothing shown |
| Selection.CardsPage.Mount | js/components/CardsPage.js:98-100 | mounting resets the selection to empty |
| Selection.CardsPage.CardDataLoaded | js/components/CardsPage.js:27-39 | a successful fetch sets the catalog and the deck to the first `min(n, 22)` shuffled cards; a failed one changes neither |
| Selection.CardsPage.SelectCard | js/components/CardsPage.js:41-65 | a flipped card is shown and not selected; an unknown spread aborts; otherwise the card is selected by the selection rule |
| Selection.CardsPage.FlipCompleted | js/components/CardsPage.js:60-63 | the animation's end marks the card flipped and shows it full screen |
| Selection.CardsPage.GetReading | js/components/CardsPage.js:67-84 | the record carries the spread id, the spread name and the selection, and goes through `setCurrentReading`: it becomes current in memory and in storage and is added newest-first to the history; an unknown spread writes nothing; the reading is complete whenever the get-reading button was shown |
| HistoryStats.SpreadNames | js/components/HistoryPage.js:15-16 | one spread name per reading, in history order |
| HistoryStats.Count | js/components/HistoryPage.js:16 | a name's count is positive exactly when it occurs |
| HistoryStats.FirstIndexIsFirst | js/components/HistoryPage.js:15-18 | the first index of a name has no earlier occurrence of it |
| HistoryStats.FirstIndex | js/components/HistoryPage.js:15-18 | the first index of a name in the history is an index holding that name |
| HistoryStats.Bump | js/components/HistoryPage.js:16 | one reduce step adds the name as a key if it is new, adds one to its count, and leaves every other count as it was |
| HistoryStats.TallyOf | js/components/HistoryPage.js:15-18 | the counting reduce over the history's spread names; `TallyCounts` proves its counts exact and its keys in first-occurrence order |
| HistoryStats.TallyCounts | js/components/HistoryPage.js:15-18 | the count map holds each name's number of readings, and its keys are the names in order of first occurrence |
| HistoryStats.CountsAddUpToTotal | js/components/HistoryPage.js:11-18 | the per-name counts add up to the history's length |
| HistoryStats.FavoriteIndex | js/components/HistoryPage.js:19 | the reduce keeps a key of maximal count, and every later key counts strictly less |
| HistoryStats.Abbreviate | js/components/HistoryPage.js:20 | a name of at most 8 characters is shown whole, and a longer one as its first 8 characters plus "..." |
| HistoryStats.FavoriteName | js/components/HistoryPage.js:15-19 | the favourite, before shortening, is a spread name of the history; `FavoriteIsMostFrequent` proves it most frequent with ties going to the later name |
| HistoryStats.FavoriteSpread | js/components/HistoryPage.js:13-21 | "-" for an empty history, otherwise the shortened favourite; `DashOnlyForEmptyHistory` states when it shows "-" |
| HistoryStats.FavoriteIsMostFrequent | js/components/HistoryPage.js:15-19 | the favourite occurs in the history, no spread occurs more often, and a tie goes to the name that first appears later |
| HistoryStats.DashOnlyForEmptyHistory | js/components/HistoryPage.js:13-21 | the favourite is "-" exactly when the history is empty, when no spread is itself named "-" |
| HistoryStats.SpreadNamesAsShown | js/components/HistoryPage.js:20 | the four spread names are shown as "Карта дн...", "Кельтски...", "Отношени..." and "Карьера" |
| HistoryStats.DaysSinceLastReading | js/components/HistoryPage.js:23-28 | a dash exactly for an empty history, and otherwise the days since the newest reading |
| HistoryStats.ViewingRepeatsTheReading | js/components/HistoryPage.js:30-33 | viewing the k-th reading of a history puts it first and leaves it also at position k+1, so the history then holds it twice |
| HistoryStats.HistoryPage.constructor | js/components/HistoryPage.js:9 | the confirmation modal starts closed |
| HistoryStats.HistoryPage.Mount | js/components/HistoryPage.js:52-53 | mounting re-reads the stored history |
| HistoryStats.HistoryPage.ConfirmClearHistory | js/components/HistoryPage.js:35-37 | the confirmation modal opens |
| HistoryStats.HistoryPage.ClearHistory | js/components/HistoryPage.js:39-42 | the history is emptied in memory and storage, and the modal closes |
| HistoryStats.HistoryPage.ViewReading | js/components/HistoryPage.js:30-33 | the reading becomes current in memory and in storage and is re-inserted at the front of the history; the page goes to "/reading" |

## Left out

- The DOM, Vue templates and refs, and the `anime` animations are not modelled. Nor are the particle loop in js/main.js and the template-only js/components/HomePage.js. They are presentation.
- Hash routing, the navigation bar and the `goBack`/`newReading` redirects are not modelled. The loading redirect of `loadReading` in js/reading.js is also left out. Navigation appears only as the returned target of `OnCurrentReadingChange` and `ViewReading`.
- `fetch` of the card data is a parameter: `None` for a failed load, otherwise the parsed cards.
- `JSON.parse` and `JSON.stringify` are left out: `LocalStorage` holds parsed values. A stored text that is not valid JSON, on which the code throws, is not modelled.
- `Math.random` is not modelled.
  - The random-comparator shuffle is any permutation of the catalog.
  - Each random value of the advice is a parameter in [0, 1).
- Dates are not modelled.
  - The reading's date is a parameter.
  - `DaysSinceLastReading` takes the day arithmetic as a function parameter, because it reads the clock.
- The progress percentage is floating point and only displayed.
- Timers, toasts, the modal's DOM, `navigator.share` and the clipboard are left out. They are I/O.
- Interpretation.AdviceNamesPickedCard: the picked card is an index, not a draw from `Math.random`. The model does not state how likely each card is.
- Text.Lower: `toLowerCase` is modelled for Latin A–Z and Cyrillic А–Я and Ѐ–Џ only. Other scripts are left unchanged, because Unicode case mapping is a library table.
- Strings are sequences of characters, not UTF-16 code units. This matters only for the 8-character truncation of names outside the Basic Multilingual Plane.
- Catalog.SpreadOf: a stored spread type naming an `Object.prototype` member (such as "constructor", "toString" or "__proto__") is treated as unknown. In JavaScript `spreads[id]` is then a truthy object whose `cards` is `undefined`. Nothing throws: `selectCard` appends with no bound, `getReading` saves a record whose spread name is that object's `name` property, and the get-reading button never appears. The position labels are unaffected, since such an entry has no element 0, 1, … and every title falls back to `Позиция i+1`. The application itself only ever stores the four known ids.
- HistoryStats.FavoriteIsMostFrequent: the count map's key order is taken as first-occurrence order. JavaScript lists integer-like keys first, and a spread name equal to an `Object.prototype` member would read the inherited value. Neither is modelled.
- HistoryStats.DashOnlyForEmptyHistory: holds only when no reading's spread is named "-". With such a name, a non-empty history also shows "-".
- Selection: nothing is claimed about the same card being selected twice. A card is marked flipped only when its animation ends, so a second click before then selects it again.
- Selection.ClassicCardsPage.LoadCardData: requires an empty deck, because the page loads the cards before dealing them. Later reloads of the catalog are not modelled.
- The `TypeError` thrown on an empty draw or an unknown spread type is modelled as no change. Examples are `GenerateReading`, `SelectCard` returning `Aborted`, and `GetReading` returning `None`. The model does not capture the error itself.
