/**
 * The processing history shared by the uploader and the history panel: the
 * record types, the capped newest-first update, and the protocol by which the
 * list is loaded from, saved to and cleared from the key-value store under the
 * key "imageHistory".
 */
module History {
  import opened Wrappers
  import opened LocalStorage

  /** Statistics of one simulated detection (all integers once rounded). */
  datatype TextStats = TextStats(
    areasDetected: int,
    totalArea: int,
    textDensity: int,
    confidence: int,
    estimatedWords: int)

  /** One persisted run: both images as data URIs, creation time in epoch milliseconds. */
  datatype HistoryItem = HistoryItem(
    id: string,
    originalImage: string,
    processedImage: string,
    timestamp: nat,
    stats: TextStats)

  const HistoryKey: string := "imageHistory"

  /** At most this many runs are kept. */
  const Capacity: nat := 10

  /** `JSON.parse` of a stored value: `None` when it throws. */
  type Parser = string -> Option<seq<HistoryItem>>

  /** `JSON.stringify` of the list. */
  type Serializer = seq<HistoryItem> -> string

  // ---------------------------------------------------------------------------
  // The capped, newest-first update `[item, ...prev.slice(0, 9)]`

  function Push(item: HistoryItem, prev: seq<HistoryItem>): (r: seq<HistoryItem>)
    ensures |r| == Min(Capacity, |prev| + 1)
    ensures r[0] == item
    ensures forall i :: 1 <= i < |r| ==> r[i] == prev[i - 1]
    ensures r[1..] == prev[..|r| - 1]
  {
    [item] + prev[..Min(Capacity - 1, |prev|)]
  }

  /** The list after pushing `items` one by one, first element first. */
  function PushAll(h: seq<HistoryItem>, items: seq<HistoryItem>): seq<HistoryItem>
  {
    if items == [] then h
    else Push(items[|items| - 1], PushAll(h, items[..|items| - 1]))
  }

  function Reverse<T>(s: seq<T>): (r: seq<T>)
    ensures |r| == |s|
  {
    if s == [] then [] else [s[|s| - 1]] + Reverse(s[..|s| - 1])
  }

  lemma {:induction false} ReverseAt<T>(s: seq<T>, k: nat)
    requires k < |s|
    ensures Reverse(s)[k] == s[|s| - 1 - k]
  {
    if k > 0 {
      ReverseAt(s[..|s| - 1], k - 1);
    } else if |s| > 1 {
      ReverseAt(s[..|s| - 1], 0);
    }
  }

  /**
   * Any number of pushes keeps the ten newest items, newest first: the new
   * items in reverse order of insertion, then what was there before; the
   * oldest are the ones dropped. A loaded list is not capped, so the start
   * may hold more than ten as long as at least one item is pushed.
   */
  lemma {:induction false} PushAllKeepsNewest(h: seq<HistoryItem>, items: seq<HistoryItem>)
    requires |h| <= Capacity || items != []
    ensures PushAll(h, items) == (Reverse(items) + h)[..Min(Capacity, |items| + |h|)]
  {
    if items == [] {
      assert Reverse(items) + h == h;
    } else {
      var init, x := items[..|items| - 1], items[|items| - 1];
      var m := |init| + |h|;
      var p := PushAll(h, init);
      if init == [] {
        assert p == h;
        assert Reverse(items) == [x];
        assert p[..Min(Capacity - 1, |p|)] == (Reverse(init) + h)[..Min(Capacity - 1, m)];
      } else {
        PushAllKeepsNewest(h, init);
        assert p == (Reverse(init) + h)[..Min(Capacity, m)];
        assert p[..Min(Capacity - 1, |p|)] == (Reverse(init) + h)[..Min(Capacity - 1, m)];
      }
      assert Reverse(items) == [x] + Reverse(init);
      calc {
        PushAll(h, items);
        Push(x, p);
        [x] + p[..Min(Capacity - 1, |p|)];
        [x] + (Reverse(init) + h)[..Min(Capacity - 1, m)];
        ([x] + (Reverse(init) + h))[..Min(Capacity, m + 1)];
        { assert [x] + (Reverse(init) + h) == Reverse(items) + h; }
        (Reverse(items) + h)[..Min(Capacity, |items| + |h|)];
      }
    }
  }

  /**
   * Starting from an empty list, after any number of runs the history holds
   * the last min(10, n) runs, position k holding the k-th newest.
   */
  lemma PushAllFromEmpty(items: seq<HistoryItem>)
    ensures |PushAll([], items)| == Min(Capacity, |items|)
    ensures forall k :: 0 <= k < |PushAll([], items)| ==>
              PushAll([], items)[k] == items[|items| - 1 - k]
  {
  }

  // ---------------------------------------------------------------------------
  // Identifiers: `Date.now().toString()`

  /** The number a string of decimal digits denotes. */
  function DigitsValue(s: string): int
  {
    if s == [] then 0 else DigitsValue(s[..|s| - 1]) * 10 + (s[|s| - 1] as int - '0' as int)
  }

  /** The decimal rendering of a non-negative integer, without leading zeros. */
  function DecimalString(n: nat): (s: string)
    ensures |s| >= 1
    ensures forall i :: 0 <= i < |s| ==> '0' <= s[i] <= '9'
    ensures n > 0 ==> s[0] != '0'
    ensures n == 0 ==> s == "0"
    ensures DigitsValue(s) == n
  {
    var last := (('0' as int) + n % 10) as char;
    if n < 10 then [last]
    else
      var prefix := DecimalString(n / 10);
      assert (prefix + [last])[..|prefix|] == prefix;
      prefix + [last]
  }

  // ---------------------------------------------------------------------------
  // The load/save/clear protocol against the store

  /**
   * The mount-time load of both components, given what `getItem` returned:
   * `null` and "" are both falsy and load nothing; a value that fails to parse
   * is logged and leaves the current list alone; otherwise the parsed list
   * replaces it.
   */
  function Loaded(saved: Option<string>, parse: Parser, current: seq<HistoryItem>): (r: seq<HistoryItem>)
    ensures r == current || (saved.Some? && saved.value != "" && parse(saved.value) == Some(r))
    ensures r != current ==> saved.Some?
  {
    match saved
    case None => current
    case Some(text) =>
      if text == "" then current
      else match parse(text)
        case None => current
        case Some(parsed) => parsed
  }

  /** The save effect: the list is written only when it is non-empty. */
  function Saved(entries: Entries, serialize: Serializer, history: seq<HistoryItem>): (r: Entries)
    ensures HistoryKey in r <==> HistoryKey in entries || |history| > 0
    ensures |history| > 0 ==> r[HistoryKey] == serialize(history)
    ensures forall k :: k in entries && k != HistoryKey ==> k in r && r[k] == entries[k]
  {
    if |history| > 0 then entries[HistoryKey := serialize(history)] else entries
  }

  /** `localStorage.removeItem("imageHistory")`. */
  function Cleared(entries: Entries): (r: Entries)
    ensures HistoryKey !in r
    ensures forall k :: k in r ==> k in entries && r[k] == entries[k]
  {
    entries - {HistoryKey}
  }

  lemma LoadMissingKey(entries: Entries, parse: Parser, current: seq<HistoryItem>)
    requires HistoryKey !in entries
    ensures Loaded(Lookup(entries, HistoryKey), parse, current) == current
  {
  }

  lemma LoadEmptyValue(entries: Entries, parse: Parser, current: seq<HistoryItem>)
    requires HistoryKey in entries && entries[HistoryKey] == ""
    ensures Loaded(Lookup(entries, HistoryKey), parse, current) == current
  {
  }

  lemma LoadParseFailure(entries: Entries, parse: Parser, current: seq<HistoryItem>)
    requires HistoryKey in entries && parse(entries[HistoryKey]).None?
    ensures Loaded(Lookup(entries, HistoryKey), parse, current) == current
  {
  }

  lemma LoadParsed(entries: Entries, parse: Parser, current: seq<HistoryItem>)
    requires HistoryKey in entries && entries[HistoryKey] != ""
    requires parse(entries[HistoryKey]).Some?
    ensures Loaded(Lookup(entries, HistoryKey), parse, current) == parse(entries[HistoryKey]).value
  {
  }

  /** Saving touches no key but "imageHistory", and an empty list touches nothing. */
  lemma SaveOnlyHistoryKey(entries: Entries, serialize: Serializer, history: seq<HistoryItem>)
    ensures forall k :: k != HistoryKey ==>
              (k in Saved(entries, serialize, history) <==> k in entries)
    ensures forall k :: k != HistoryKey && k in entries ==>
              Saved(entries, serialize, history)[k] == entries[k]
    ensures |history| == 0 ==> Saved(entries, serialize, history) == entries
  {
  }

  /**
   * When parsing undoes serializing, a saved non-empty list is exactly what
   * the next load produces; after saving an empty list the next load still
   * produces whatever was there before.
   */
  lemma SaveThenLoad(entries: Entries, parse: Parser, serialize: Serializer,
                     history: seq<HistoryItem>, current: seq<HistoryItem>)
    requires serialize(history) != "" && parse(serialize(history)) == Some(history)
    ensures |history| > 0 ==>
              Loaded(Lookup(Saved(entries, serialize, history), HistoryKey), parse, current) == history
    ensures |history| == 0 ==>
              Loaded(Lookup(Saved(entries, serialize, history), HistoryKey), parse, current)
              == Loaded(Lookup(entries, HistoryKey), parse, current)
  {
  }

  /** Clearing removes "imageHistory", keeps every other key, and is idempotent. */
  lemma ClearRemovesOnlyHistory(entries: Entries)
    ensures HistoryKey !in Cleared(entries)
    ensures forall k :: k != HistoryKey ==> (k in Cleared(entries) <==> k in entries)
    ensures forall k :: k != HistoryKey && k in entries ==> Cleared(entries)[k] == entries[k]
    ensures Cleared(Cleared(entries)) == Cleared(entries)
  {
  }

  /** A load after a clear finds nothing and keeps the current (initially empty) list. */
  lemma LoadAfterClear(entries: Entries, parse: Parser, current: seq<HistoryItem>)
    ensures Loaded(Lookup(Cleared(entries), HistoryKey), parse, current) == current
  {
  }
}
