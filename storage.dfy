/**
 * The persisted application state: browser `localStorage` with the three keys the
 * application writes, the bounded newest-first history update, and the reactive
 * store of js/store.js.
 */
module Storage {
  import opened Wrappers
  import opened Catalog

  /** The history keeps at most this many readings. */
  const HistoryLimit: nat := 10

  /**
   * `localStorage`, reduced to the keys the application uses. Each slot holds the
   * value stored under the key, already parsed, or `None` when the key is absent.
   */
  class LocalStorage {
    var selectedSpread: Option<string>
    var currentReading: Option<Reading>
    var taroHistory: Option<seq<Reading>>

    constructor (selectedSpread: Option<string>, currentReading: Option<Reading>, taroHistory: Option<seq<Reading>>)
      ensures this.selectedSpread == selectedSpread
      ensures this.currentReading == currentReading
      ensures this.taroHistory == taroHistory
    {
      this.selectedSpread := selectedSpread;
      this.currentReading := currentReading;
      this.taroHistory := taroHistory;
    }
  }

  /** `JSON.parse(localStorage.getItem('taroHistory') || '[]')`: an absent history reads as empty. */
  function StoredHistory(slot: Option<seq<Reading>>): (history: seq<Reading>)
    ensures slot.None? ==> history == []
    ensures slot.Some? ==> history == slot.value
  {
    slot.GetOr([])
  }

  /** `localStorage.getItem('selectedSpread') || 'single'`: an absent or empty value reads as "single". */
  function SpreadOrDefault(slot: Option<string>): (spreadType: string)
    ensures spreadType != ""
    ensures slot.Some? && slot.value != "" ==> spreadType == slot.value
    ensures slot.None? || slot.value == "" ==> spreadType == "single"
  {
    if slot.Some? && slot.value != "" then slot.value else "single"
  }

  /** `history.unshift(r); if (history.length > 10) history.pop();` */
  function NewestFirst(history: seq<Reading>, r: Reading): (h: seq<Reading>)
    ensures |h| >= 1 && h[0] == r
    ensures h[1..] <= history
    ensures |h| == if |history| < HistoryLimit then |history| + 1 else |history|
  {
    var h := [r] + history;
    if |h| > HistoryLimit then h[..|h| - 1] else h
  }

  /** A history within the limit stays within it: it grows by one until it holds ten readings. */
  lemma NewestFirstBounded(history: seq<Reading>, r: Reading)
    requires |history| <= HistoryLimit
    ensures |NewestFirst(history, r)| == if |history| < HistoryLimit then |history| + 1 else HistoryLimit
    ensures |NewestFirst(history, r)| <= HistoryLimit
  {
  }

  /** Adding to a full history keeps the nine newest old readings and drops the oldest one. */
  lemma FullHistoryDropsOldest(history: seq<Reading>, r: Reading)
    requires |history| == HistoryLimit
    ensures NewestFirst(history, r) == [r] + history[..HistoryLimit - 1]
  {
  }

  /** The history after adding `readings` one after the other, in that order. */
  function AddAll(history: seq<Reading>, readings: seq<Reading>): seq<Reading>
    decreases |readings|
  {
    if |readings| == 0 then history else AddAll(NewestFirst(history, readings[0]), readings[1..])
  }

  function Reversed(s: seq<Reading>): (r: seq<Reading>)
    ensures |r| == |s|
  {
    if |s| == 0 then [] else Reversed(s[1..]) + [s[0]]
  }

  function Min(a: nat, b: nat): nat
  {
    if a <= b then a else b
  }

  /** Cutting the history before or after putting newer readings in front of it comes to the same. */
  lemma NewerInFront(newer: seq<Reading>, history: seq<Reading>, r: Reading)
    requires |history| <= HistoryLimit
    ensures (newer + NewestFirst(history, r))[..Min(HistoryLimit, |newer| + |NewestFirst(history, r)|)]
         == (newer + [r] + history)[..Min(HistoryLimit, |newer| + 1 + |history|)]
  {
    var h := [r] + history;
    var m := Min(HistoryLimit, |h|);
    var k := Min(HistoryLimit, |newer| + m);
    assert NewestFirst(history, r) == h[..m];
    assert newer + [r] + history == newer + h;
    assert forall i :: 0 <= i < k ==> (newer + h[..m])[i] == (newer + h)[i];
  }

  /**
   * Whatever sequence of readings is added to a history within the limit, the result
   * is the newest readings first, then the old history, cut to at most ten.
   */
  lemma {:induction false} AddAllKeepsNewest(history: seq<Reading>, readings: seq<Reading>)
    requires |history| <= HistoryLimit
    ensures AddAll(history, readings)
         == (Reversed(readings) + history)[..Min(HistoryLimit, |readings| + |history|)]
    decreases |readings|
  {
    if |readings| == 0 {
      assert Reversed(readings) + history == history;
    } else {
      var r0, rest := readings[0], readings[1..];
      AddAllKeepsNewest(NewestFirst(history, r0), rest);
      NewerInFront(Reversed(rest), history, r0);
    }
  }

  /**
   * The module-level `state` of js/store.js: the history, the current reading and the
   * selected spread, kept in step with `storage`.
   */
  class Store {
    var history: seq<Reading>
    var currentReading: Option<Reading>
    var selectedSpread: string
    const storage: LocalStorage

    /** The history holds at most ten readings. */
    predicate Bounded()
      reads this
    {
      |history| <= HistoryLimit
    }

    /** The initial load: `loadHistory()`, then the selected spread and the current reading. */
    constructor (storage: LocalStorage)
      ensures this.storage == storage
      ensures history == StoredHistory(storage.taroHistory)
      ensures selectedSpread == SpreadOrDefault(storage.selectedSpread)
      ensures currentReading == storage.currentReading
    {
      this.storage := storage;
      history := StoredHistory(storage.taroHistory);
      selectedSpread := SpreadOrDefault(storage.selectedSpread);
      currentReading := storage.currentReading;
    }

    /** `loadHistory`: re-reads the persisted history. */
    method LoadHistory()
      modifies this`history
      ensures history == StoredHistory(storage.taroHistory)
    {
      history := StoredHistory(storage.taroHistory);
    }

    /** `selectSpread`: only the selected spread changes, in memory and in storage. */
    method SelectSpread(spreadType: string)
      modifies this`selectedSpread, storage`selectedSpread
      ensures selectedSpread == spreadType
      ensures storage.selectedSpread == Some(spreadType)
    {
      selectedSpread := spreadType;
      storage.selectedSpread := Some(spreadType);
    }

    /** `setCurrentReading`: the reading becomes current and is added to the front of the history. */
    method SetCurrentReading(reading: Reading)
      modifies this`currentReading, this`history, storage`currentReading, storage`taroHistory
      ensures currentReading == Some(reading)
      ensures storage.currentReading == Some(reading)
      ensures history == NewestFirst(old(history), reading)
      ensures old(Bounded()) ==> Bounded()
      ensures storage.taroHistory == Some(history)
    {
      currentReading := Some(reading);
      storage.currentReading := Some(reading);
      history := [reading] + history;
      if |history| > HistoryLimit {
        history := history[..|history| - 1];
      }
      storage.taroHistory := Some(history);
    }

    /** `clearHistory` */
    method ClearHistory()
      modifies this`history, storage`taroHistory
      ensures history == []
      ensures storage.taroHistory == Some(history)
    {
      history := [];
      storage.taroHistory := Some(history);
    }
  }
}
