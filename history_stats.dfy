/**
 * The history page of js/components/HistoryPage.js: the number of saved readings,
 * the favourite spread (most frequent spread name, ties going to the name whose
 * key comes later, shortened to 8 characters), the empty case of the days since
 * the last reading, and the page's actions on the store.
 */
module HistoryStats {
  import opened Wrappers
  import opened Catalog
  import opened Storage

  /** `history.map(reading => reading.spreadName)`, the values the counting reduce reads. */
  function SpreadNames(history: seq<Reading>): (names: seq<string>)
    ensures |names| == |history|
    ensures forall k :: 0 <= k < |history| ==> names[k] == history[k].spreadName
  {
    seq(|history|, k requires 0 <= k < |history| => history[k].spreadName)
  }

  /** The number of times `x` occurs in `names`. */
  function Count(names: seq<string>, x: string): (n: nat)
    ensures n <= |names|
    ensures n > 0 <==> x in names
  {
    if |names| == 0 then 0
    else Count(names[..|names| - 1], x) + (if names[|names| - 1] == x then 1 else 0)
  }

  /** The index of the first occurrence of `x` in `names`. */
  function FirstIndex(names: seq<string>, x: string): (i: nat)
    requires x in names
    ensures i < |names| && names[i] == x
  {
    var init := names[..|names| - 1];
    if x in init then FirstIndex(init, x) else |names| - 1
  }

  /** No occurrence of `x` comes before its first one. */
  lemma {:induction false} FirstIndexIsFirst(names: seq<string>, x: string)
    requires x in names
    ensures forall j :: 0 <= j < FirstIndex(names, x) ==> names[j] != x
  {
    var init := names[..|names| - 1];
    if x in init {
      FirstIndexIsFirst(init, x);
    }
  }

  /**
   * The object the counting reduce builds: its keys in `Object.keys` order (the order
   * in which each name was first added) and the count stored under each key.
   */
  datatype Tally = Tally(keys: seq<string>, counts: map<string, nat>)

  /** `acc[name] = (acc[name] || 0) + 1` */
  function Bump(t: Tally, name: string): (b: Tally)
    ensures forall y :: y in b.counts <==> y in t.counts || y == name
    ensures b.counts[name] == (if name in t.counts then t.counts[name] else 0) + 1
    ensures forall y :: y in t.counts && y != name ==> b.counts[y] == t.counts[y]
  {
    if name in t.counts then Tally(t.keys, t.counts[name := t.counts[name] + 1])
    else Tally(t.keys + [name], t.counts[name := 1])
  }

  /** `history.reduce((acc, reading) => ..., {})` on the spread names, in history order. */
  function TallyOf(names: seq<string>): Tally
  {
    if |names| == 0 then Tally([], map[]) else Bump(TallyOf(names[..|names| - 1]), names[|names| - 1])
  }

  /** Each name occurs once in `keys`, ordered by its first occurrence in `names`. */
  ghost predicate FirstOccurrenceOrder(keys: seq<string>, names: seq<string>)
  {
    && (forall k :: 0 <= k < |keys| ==> keys[k] in names)
    && (forall i, j :: 0 <= i < j < |keys| ==> FirstIndex(names, keys[i]) < FirstIndex(names, keys[j]))
  }

  /** The tally's keys are exactly the counted names, and each holds the number of its occurrences. */
  ghost predicate CountsExact(t: Tally, names: seq<string>)
  {
    && (forall x :: x in t.counts <==> x in names)
    && (forall x :: x in t.counts ==> t.counts[x] == Count(names, x))
    && (forall x :: x in t.counts <==> x in t.keys)
  }

  /** The tally is well formed: its keys are exactly its counted names, each once, in first-occurrence order. */
  ghost predicate Tallies(t: Tally, names: seq<string>)
  {
    CountsExact(t, names) && FirstOccurrenceOrder(t.keys, names)
  }

  /** Appending a name leaves the first occurrence of every earlier name where it was. */
  lemma FirstIndexOfPrefix(init: seq<string>, x: string, y: string)
    requires y in init
    ensures y in init + [x] && FirstIndex(init + [x], y) == FirstIndex(init, y)
  {
    assert (init + [x])[..|init|] == init;
  }

  /** Appending a name changes the count of no other name. */
  lemma CountOfPrefix(init: seq<string>, x: string, y: string)
    ensures Count(init + [x], y) == Count(init, y) + (if x == y then 1 else 0)
  {
    assert (init + [x])[..|init|] == init;
  }

  /** The counting reduce counts every spread name exactly. */
  lemma {:induction false} TallyCountsExact(names: seq<string>)
    ensures CountsExact(TallyOf(names), names)
  {
    if |names| > 0 {
      var init, x := names[..|names| - 1], names[|names| - 1];
      assert names == init + [x];
      TallyCountsExact(init);
      var t' := TallyOf(names);
      forall y | y in t'.counts ensures t'.counts[y] == Count(names, y) {
        CountOfPrefix(init, x, y);
      }
    }
  }

  /** The keys of the counting reduce list each name once, ordered by first occurrence in the history. */
  lemma {:induction false} TallyKeyOrder(names: seq<string>)
    ensures FirstOccurrenceOrder(TallyOf(names).keys, names)
  {
    if |names| > 0 {
      var init, x := names[..|names| - 1], names[|names| - 1];
      assert names == init + [x];
      TallyKeyOrder(init);
      TallyCountsExact(init);
      var t := TallyOf(init);
      var keys := TallyOf(names).keys;
      if x in t.counts {
        assert keys == t.keys;
        forall i, j | 0 <= i < j < |keys|
          ensures FirstIndex(names, keys[i]) < FirstIndex(names, keys[j])
        {
          FirstIndexOfPrefix(init, x, keys[i]);
          FirstIndexOfPrefix(init, x, keys[j]);
        }
      } else {
        assert keys == t.keys + [x];
        assert FirstIndex(names, x) == |names| - 1;
        forall i, j | 0 <= i < j < |keys|
          ensures FirstIndex(names, keys[i]) < FirstIndex(names, keys[j])
        {
          FirstIndexOfPrefix(init, x, keys[i]);
          if j < |t.keys| {
            FirstIndexOfPrefix(init, x, keys[j]);
          }
        }
      }
    }
  }

  /**
   * The counting reduce counts every spread name exactly, and its keys list each
   * name once, ordered by first occurrence in the history.
   */
  lemma TallyCounts(names: seq<string>)
    ensures Tallies(TallyOf(names), names)
  {
    TallyCountsExact(names);
    TallyKeyOrder(names);
  }

  /** What the favourite reduce needs of the tally: every name is a key, and each key holds its count. */
  lemma KeysCountNames(names: seq<string>)
    ensures var t := TallyOf(names);
            && (forall k :: 0 <= k < |t.keys| ==> t.keys[k] in t.counts && t.counts[t.keys[k]] == Count(names, t.keys[k]))
            && (forall k :: 0 <= k < |names| ==> names[k] in t.keys)
            && FirstOccurrenceOrder(t.keys, names)
  {
    TallyCounts(names);
  }

  /** The sum of the counts stored under `keys`. */
  function Sum(keys: seq<string>, counts: map<string, nat>): nat
    requires forall k :: 0 <= k < |keys| ==> keys[k] in counts
  {
    if |keys| == 0 then 0 else Sum(keys[..|keys| - 1], counts) + counts[keys[|keys| - 1]]
  }

  /** Raising the count of one key by one raises the sum over distinct keys by one. */
  lemma {:induction false} SumBump(keys: seq<string>, counts: map<string, nat>, x: string)
    requires forall k :: 0 <= k < |keys| ==> keys[k] in counts
    requires forall i, j :: 0 <= i < j < |keys| ==> keys[i] != keys[j]
    requires x in counts
    ensures Sum(keys, counts[x := counts[x] + 1]) == Sum(keys, counts) + (if x in keys then 1 else 0)
  {
    if |keys| > 0 {
      var init := keys[..|keys| - 1];
      SumBump(init, counts, x);
      assert x in keys <==> x in init || keys[|keys| - 1] == x;
      if keys[|keys| - 1] == x {
        assert x !in init;
      }
    }
  }

  /** A new key with no stored count adds nothing to the sum over the old keys. */
  lemma {:induction false} SumNewKey(keys: seq<string>, counts: map<string, nat>, x: string, c: nat)
    requires forall k :: 0 <= k < |keys| ==> keys[k] in counts
    requires x !in keys
    ensures Sum(keys, counts[x := c]) == Sum(keys, counts)
  {
    if |keys| > 0 {
      SumNewKey(keys[..|keys| - 1], counts, x, c);
    }
  }

  /** The keys of the tally are its counted names, each listed once. */
  lemma DistinctKeys(names: seq<string>)
    ensures var t := TallyOf(names);
            && (forall x :: x in t.counts <==> x in t.keys)
            && (forall i, j :: 0 <= i < j < |t.keys| ==> t.keys[i] != t.keys[j])
  {
    TallyCounts(names);
  }

  /** Counting one more name raises the sum of the counts by one. */
  lemma SumAfterBump(t: Tally, x: string)
    requires forall k :: 0 <= k < |t.keys| ==> t.keys[k] in t.counts
    requires forall y :: y in t.counts <==> y in t.keys
    requires forall i, j :: 0 <= i < j < |t.keys| ==> t.keys[i] != t.keys[j]
    ensures var b := Bump(t, x);
            (forall k :: 0 <= k < |b.keys| ==> b.keys[k] in b.counts) && Sum(b.keys, b.counts) == Sum(t.keys, t.counts) + 1
  {
    if x in t.counts {
      SumBump(t.keys, t.counts, x);
    } else {
      SumAppendNewKey(t.keys, t.counts, x);
    }
  }

  /** A name counted for the first time adds a key whose count is one. */
  lemma SumAppendNewKey(keys: seq<string>, counts: map<string, nat>, x: string)
    requires forall k :: 0 <= k < |keys| ==> keys[k] in counts
    requires x !in keys
    ensures var ks, cs := keys + [x], counts[x := 1];
            (forall k :: 0 <= k < |ks| ==> ks[k] in cs) && Sum(ks, cs) == Sum(keys, counts) + 1
  {
    var ks, cs := keys + [x], counts[x := 1];
    SumNewKey(keys, counts, x, 1);
    assert ks[..|ks| - 1] == keys;
  }

  /** The counts of the tally add up to `totalReadings`, the length of the history. */
  lemma {:induction false} CountsAddUpToTotal(names: seq<string>)
    ensures var t := TallyOf(names);
            (forall k :: 0 <= k < |t.keys| ==> t.keys[k] in t.counts) && Sum(t.keys, t.counts) == |names|
  {
    if |names| > 0 {
      var init, x := names[..|names| - 1], names[|names| - 1];
      CountsAddUpToTotal(init);
      DistinctKeys(init);
      SumAfterBump(TallyOf(init), x);
    }
  }

  /**
   * `Object.keys(counts).reduce((a, b) => counts[a] > counts[b] ? a : b)`, as the index
   * of the key it keeps: a key with the largest count, after which every key counts
   * strictly less, so that among equal counts the later key wins.
   */
  function FavoriteIndex(keys: seq<string>, counts: map<string, nat>): (i: nat)
    requires |keys| > 0
    requires forall k :: 0 <= k < |keys| ==> keys[k] in counts
    ensures i < |keys|
    ensures forall j :: 0 <= j < |keys| ==> counts[keys[j]] <= counts[keys[i]]
    ensures forall j :: i < j < |keys| ==> counts[keys[j]] < counts[keys[i]]
  {
    if |keys| == 1 then 0
    else
      var a := FavoriteIndex(keys[..|keys| - 1], counts);
      var b := |keys| - 1;
      if counts[keys[a]] > counts[keys[b]] then a else b
  }

  /** `favSpread.length > 8 ? favSpread.substring(0, 8) + '...' : favSpread` */
  function Abbreviate(name: string): (shown: string)
    ensures |name| <= 8 ==> shown == name
    ensures |name| > 8 ==> |shown| == 11 && shown[..8] == name[..8] && shown[8..] == "..."
  {
    if |name| > 8 then name[..8] + "..." else name
  }

  /** The most frequent spread name, before it is shortened. */
  function FavoriteName(history: seq<Reading>): (fav: string)
    requires |history| > 0
    ensures fav in SpreadNames(history)
  {
    var names := SpreadNames(history);
    var t := TallyOf(names);
    TallyCounts(names);
    assert names[0] in t.keys;
    t.keys[FavoriteIndex(t.keys, t.counts)]
  }

  /** The `favoriteSpread` computed: "-" for an empty history. */
  function FavoriteSpread(history: seq<Reading>): (shown: string)
  {
    if |history| == 0 then "-" else Abbreviate(FavoriteName(history))
  }

  /**
   * The key the reduce keeps outnumbers the key at `j`, and when the two are tied the
   * key at `j` was counted first.
   */
  lemma KeptKeyIsMostFrequent(keys: seq<string>, counts: map<string, nat>, names: seq<string>, j: nat)
    requires forall k :: 0 <= k < |keys| ==> keys[k] in counts && counts[keys[k]] == Count(names, keys[k])
    requires FirstOccurrenceOrder(keys, names)
    requires j < |keys|
    ensures var fav := keys[FavoriteIndex(keys, counts)];
            && Count(names, keys[j]) <= Count(names, fav)
            && (keys[j] != fav && Count(names, keys[j]) == Count(names, fav)
                ==> FirstIndex(names, keys[j]) < FirstIndex(names, fav))
  {
    var i := FavoriteIndex(keys, counts);
    if keys[j] != keys[i] && Count(names, keys[j]) == Count(names, keys[i]) {
      assert j < i;
    }
  }

  /**
   * The favourite is a spread name of the history that no other name outnumbers;
   * another name with the same count first occurs earlier in the history
   * (newest first), because the reduce keeps the earlier key only when strictly greater.
   */
  lemma FavoriteIsMostFrequent(history: seq<Reading>)
    requires |history| > 0
    ensures var names := SpreadNames(history);
            var fav := FavoriteName(history);
            && fav in names
            && (forall k :: 0 <= k < |names| ==> Count(names, names[k]) <= Count(names, fav))
            && (forall k :: 0 <= k < |names| && names[k] != fav && Count(names, names[k]) == Count(names, fav)
                  ==> FirstIndex(names, names[k]) < FirstIndex(names, fav))
  {
    var names := SpreadNames(history);
    var t := TallyOf(names);
    KeysCountNames(names);
    var keys, counts := t.keys, t.counts;
    assert names[0] in keys;
    var fav := keys[FavoriteIndex(keys, counts)];
    forall k | 0 <= k < |names|
      ensures Count(names, names[k]) <= Count(names, fav)
      ensures names[k] != fav && Count(names, names[k]) == Count(names, fav)
              ==> FirstIndex(names, names[k]) < FirstIndex(names, fav)
    {
      assert names[k] in keys;
      var j :| 0 <= j < |keys| && keys[j] == names[k];
      KeptKeyIsMostFrequent(keys, counts, names, j);
    }
  }

  /** Only an empty history shows "-", as long as no spread is itself named "-". */
  lemma DashOnlyForEmptyHistory(history: seq<Reading>)
    requires forall k :: 0 <= k < |history| ==> history[k].spreadName != "-"
    ensures FavoriteSpread(history) == "-" <==> |history| == 0
  {
    if |history| > 0 {
      FavoriteIsMostFrequent(history);
      var fav := FavoriteName(history);
      var names := SpreadNames(history);
      var k :| 0 <= k < |names| && names[k] == fav;
      assert fav != "-";
    }
  }

  /** Three of the four spread names are longer than 8 characters and are shown shortened. */
  lemma SpreadNamesAsShown()
    ensures Abbreviate("Карта дня") == "Карта дн..."
    ensures Abbreviate("Кельтский крест") == "Кельтски..."
    ensures Abbreviate("Отношения") == "Отношени..."
    ensures Abbreviate("Карьера") == "Карьера"
  {
  }

  /** `daysSinceLastReading`: "-" for an empty history, otherwise a number of days. */
  datatype DaysShown = Dash | Days(days: int)

  /**
   * The `daysSinceLastReading` computed. The day arithmetic on the newest reading's
   * date and the clock is the parameter `daysSince`.
   */
  function DaysSinceLastReading(history: seq<Reading>, daysSince: Reading -> int): (shown: DaysShown)
    ensures shown == Dash <==> |history| == 0
    ensures |history| > 0 ==> shown == Days(daysSince(history[0]))
  {
    if |history| == 0 then Dash else Days(daysSince(history[0]))
  }

  /**
   * Viewing a reading of the history puts it in front a second time: it now stands both
   * at the front and, unless it was the oldest of a full history, where it was before.
   */
  lemma ViewingRepeatsTheReading(history: seq<Reading>, k: nat)
    requires k < |history| && k + 1 < HistoryLimit
    ensures var h := NewestFirst(history, history[k]);
            k + 1 < |h| && h[0] == history[k] && h[k + 1] == history[k]
  {
    var h := NewestFirst(history, history[k]);
    assert h[1..][k] == history[k];
  }

  /** The history page: the confirmation dialog and the store it shows. */
  class HistoryPage {
    var showConfirmModal: bool
    const store: Store

    constructor (store: Store)
      ensures this.store == store && !showConfirmModal
    {
      this.store := store;
      showConfirmModal := false;
    }

    /** `onMounted`: the history is read again from storage. */
    method Mount()
      modifies store`history
      ensures store.history == StoredHistory(store.storage.taroHistory)
    {
      store.LoadHistory();
    }

    /** `confirmClearHistory`: opens the dialog. */
    method ConfirmClearHistory()
      modifies this`showConfirmModal
      ensures showConfirmModal
    {
      showConfirmModal := true;
    }

    /** `clearHistory`: empties the history, in memory and in storage, and closes the dialog. */
    method ClearHistory()
      modifies this`showConfirmModal, store`history, store.storage`taroHistory
      ensures store.history == [] && store.storage.taroHistory == Some([])
      ensures !showConfirmModal
    {
      store.ClearHistory();
      showConfirmModal := false;
    }

    /** `viewReading`: the reading becomes current and goes to the front of the history; the page moves to "/reading". */
    method ViewReading(reading: Reading) returns (navigate: string)
      modifies store`currentReading, store`history, store.storage`currentReading, store.storage`taroHistory
      ensures store.currentReading == Some(reading)
      ensures store.storage.currentReading == Some(reading)
      ensures store.history == NewestFirst(old(store.history), reading)
      ensures store.storage.taroHistory == Some(store.history)
      ensures navigate == "/reading"
    {
      store.SetCurrentReading(reading);
      navigate := "/reading";
    }
  }
}
