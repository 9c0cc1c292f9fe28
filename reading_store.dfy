/**
 The per-category reading store behind the screen (App.js:18-50, 100): the
 working fields, the device's key-value storage, and the operations that load
 a category's saved state, save a new reading, switch category and clear the
 inputs. Storage is an in-memory map; whether each write succeeds is a
 parameter of the operation that writes.
 */
module ReadingStore {
  import opened Parsing
  import opened Billing

  /** The two billing categories the screen switches between. */
  datatype Mode = Electricity | Water

  /** The prefix a category's storage keys share. */
  function Category(mode: Mode): string {
    if mode == Electricity then "elec" else "water"
  }

  /** The storage key of a category's last saved reading: the category's
      prefix followed by "_prev". */
  function PrevKey(mode: Mode): (k: string)
    ensures k == Category(mode) + "_prev"
  {
    if mode == Electricity then "elec_prev" else "water_prev"
  }

  /** The storage key of a category's saved history: the category's prefix
      followed by "_hist". */
  function HistKey(mode: Mode): (k: string)
    ensures k == Category(mode) + "_hist"
  {
    if mode == Electricity then "elec_hist" else "water_hist"
  }

  /** The four keys are pairwise distinct: a reading key is never a history
      key, and the two categories share no key. */
  lemma KeysSeparate(m1: Mode, m2: Mode)
    ensures PrevKey(m1) != HistKey(m2)
    ensures m1 != m2 ==> PrevKey(m1) != PrevKey(m2) && HistKey(m1) != HistKey(m2)
  {
  }

  /** One saved record: its id (the save's timestamp), the screen's date, and
      the consumption and bill share computed when it was saved. */
  datatype HistoryEntry = HistoryEntry(id: int, date: string, consumption: real, bill: JsNumber)

  /** A stored value: text written as it is, or the serialised form of a
      history list. */
  datatype Stored = Text(text: string) | Json(entries: seq<HistoryEntry>)

  type Storage = map<string, Stored>

  /** The most entries a save keeps. */
  const MaxHistory := 12

  function Min(a: int, b: int): int {
    if a <= b then a else b
  }

  /** `s.slice(0, 12)`: the first (newest) entries, at most `MaxHistory` of them. */
  function Truncate(s: seq<HistoryEntry>): seq<HistoryEntry> {
    s[..Min(|s|, MaxHistory)]
  }

  /** The history a save writes: the new entry, then the old entries in their
      order, the oldest dropped beyond `MaxHistory`. */
  function Pushed(entry: HistoryEntry, history: seq<HistoryEntry>): (r: seq<HistoryEntry>)
    ensures |r| == Min(|history| + 1, MaxHistory) && |r| <= MaxHistory
    ensures r[0] == entry
    ensures forall k :: 1 <= k < |r| ==> r[k] == history[k - 1]
    ensures |history| < MaxHistory ==> r == [entry] + history
  {
    Truncate([entry] + history)
  }

  /** The history after saving `entries` one after another, oldest save first. */
  function PushAll(history: seq<HistoryEntry>, entries: seq<HistoryEntry>): seq<HistoryEntry> {
    if entries == [] then history
    else Pushed(entries[|entries| - 1], PushAll(history, entries[..|entries| - 1]))
  }

  function Reversed(s: seq<HistoryEntry>): seq<HistoryEntry> {
    if s == [] then [] else [s[|s| - 1]] + Reversed(s[..|s| - 1])
  }

  lemma {:induction false} ReversedAt(s: seq<HistoryEntry>, k: int)
    requires 0 <= k < |s|
    ensures |Reversed(s)| == |s| && Reversed(s)[k] == s[|s| - 1 - k]
  {
    if k > 0 {
      ReversedAt(s[..|s| - 1], k - 1);
    } else {
      ReversedLength(s[..|s| - 1]);
    }
  }

  lemma {:induction false} ReversedLength(s: seq<HistoryEntry>)
    ensures |Reversed(s)| == |s|
  {
    if s != [] {
      ReversedLength(s[..|s| - 1]);
    }
  }

  lemma TruncatePushed(entry: HistoryEntry, s: seq<HistoryEntry>)
    ensures Truncate([entry] + Truncate(s)) == Truncate([entry] + s)
  {
  }

  /** Saving several entries in a row keeps the newest `MaxHistory` of all
      entries, newest first: the new ones in reverse order of saving, then the
      old history. */
  lemma {:induction false} SavesKeepNewest(history: seq<HistoryEntry>, entries: seq<HistoryEntry>)
    ensures PushAll(history, entries) == if entries == [] then history else Truncate(Reversed(entries) + history)
  {
    if entries != [] {
      var front, last := entries[..|entries| - 1], entries[|entries| - 1];
      SavesKeepNewest(history, front);
      PushAllStep(history, entries);
      ReversedStep(entries);
      if front == [] {
        assert PushAll(history, front) == history && Reversed(front) == [];
        assert Reversed(entries) + history == [last] + history;
      } else {
        TruncatePushed(last, Reversed(front) + history);
        assert [last] + (Reversed(front) + history) == Reversed(entries) + history;
      }
    }
  }

  lemma PushAllStep(history: seq<HistoryEntry>, entries: seq<HistoryEntry>)
    requires entries != []
    ensures PushAll(history, entries)
              == Truncate([entries[|entries| - 1]] + PushAll(history, entries[..|entries| - 1]))
  {
  }

  lemma ReversedStep(entries: seq<HistoryEntry>)
    requires entries != []
    ensures Reversed(entries) == [entries[|entries| - 1]] + Reversed(entries[..|entries| - 1])
  {
  }

  /** Thirteen saves starting from an empty history leave twelve entries: those
      of saves 2 to 13, newest first; the first save's entry is gone. */
  lemma ThirteenSaves(entries: seq<HistoryEntry>)
    requires |entries| == 13
    requires forall i, j :: 0 <= i < j < |entries| ==> entries[i].id != entries[j].id
    ensures |PushAll([], entries)| == 12
    ensures forall k :: 0 <= k < 12 ==> PushAll([], entries)[k] == entries[12 - k]
    ensures entries[0] !in PushAll([], entries)
  {
    var r := PushAll([], entries);
    SavesKeepNewest([], entries);
    ReversedLength(entries);
    var reversed := Reversed(entries);
    assert reversed + [] == reversed;
    assert r == Truncate(reversed) && Min(|reversed|, MaxHistory) == 12;
    forall k | 0 <= k < 12
      ensures r[k] == entries[12 - k]
    {
      ReversedAt(entries, k);
    }
    forall k | 0 <= k < 12
      ensures r[k] != entries[0]
    {
      assert r[k].id == entries[12 - k].id != entries[0].id;
    }
  }

  /** The consumption recorded in a history, summed over its entries. */
  function TotalConsumption(h: seq<HistoryEntry>): real {
    if h == [] then 0.0 else h[0].consumption + TotalConsumption(h[1..])
  }

  lemma {:induction false} TotalLast(h: seq<HistoryEntry>)
    requires h != []
    ensures TotalConsumption(h) == TotalConsumption(h[..|h| - 1]) + h[|h| - 1].consumption
  {
    if |h| > 1 {
      TotalLast(h[1..]);
      assert h[1..][..|h| - 2] == h[..|h| - 1][1..];
    }
  }

  lemma {:induction false} TotalReversed(h: seq<HistoryEntry>)
    ensures TotalConsumption(Reversed(h)) == TotalConsumption(h)
  {
    if h != [] {
      TotalReversed(h[..|h| - 1]);
      TotalLast(h);
      assert ([h[|h| - 1]] + Reversed(h[..|h| - 1]))[1..] == Reversed(h[..|h| - 1]);
    }
  }

  lemma ReversedPrefix(s: seq<HistoryEntry>, k: nat)
    requires k <= |s|
    ensures |Reversed(s)| == |s| && Reversed(s)[..k] == Reversed(s[|s| - k..])
  {
    ReversedLength(s);
    ReversedLength(s[|s| - k..]);
    forall j | 0 <= j < k
      ensures Reversed(s)[j] == Reversed(s[|s| - k..])[j]
    {
      ReversedAt(s, j);
      ReversedAt(s[|s| - k..], j);
    }
  }

  /** The entries of successive saves: the `k`-th save recorded the
      consumption from reading `k` to reading `k + 1`, each saved reading
      having become the previous reading of the next save. */
  predicate Chained(readings: seq<Option<real>>, entries: seq<HistoryEntry>) {
    |readings| == |entries| + 1 &&
    forall k :: 0 <= k < |entries| ==> entries[k].consumption == Consumption(readings[k], readings[k + 1])
  }

  lemma {:induction false} ChainedTelescopes(readings: seq<Option<real>>, entries: seq<HistoryEntry>)
    requires Chained(readings, entries)
    ensures TotalConsumption(entries) == Reading(readings[|entries|]) - Reading(readings[0])
  {
    if entries != [] {
      assert Chained(readings[1..], entries[1..]);
      ChainedTelescopes(readings[1..], entries[1..]);
    }
  }

  /** The history built by successive saves from an empty one records, in
      total, the meter's movement over the saves it still holds: from the
      reading before the oldest kept save to the last saved reading. */
  lemma SavedConsumptionsTelescope(readings: seq<Option<real>>, entries: seq<HistoryEntry>)
    requires Chained(readings, entries)
    ensures TotalConsumption(PushAll([], entries))
              == Reading(readings[|entries|]) - Reading(readings[|entries| - Min(|entries|, MaxHistory)])
  {
    SavesKeepNewest([], entries);
    if entries != [] {
      var n := |entries|;
      var m := Min(n, MaxHistory);
      var kept, span := entries[n - m..], readings[n - m..];
      ReversedPrefix(entries, m);
      assert Reversed(entries) + [] == Reversed(entries);
      assert PushAll([], entries) == Reversed(kept);
      TotalReversed(kept);
      forall k | 0 <= k < |kept|
        ensures kept[k].consumption == Consumption(span[k], span[k + 1])
      {
        assert kept[k] == entries[n - m + k];
      }
      ChainedTelescopes(span, kept);
      assert span[|kept|] == readings[n] && span[0] == readings[n - m];
    }
  }

  /** Every reading key holds text: the only writes to it are readings. */
  predicate Consistent(storage: Storage) {
    forall m: Mode :: PrevKey(m) in storage ==> storage[PrevKey(m)].Text?
  }

  /** `savedPrev || '0'`: the stored reading, or "0" when there is none or it is empty. */
  function LoadedPrev(storage: Storage, mode: Mode): (r: string)
    requires Consistent(storage)
    ensures r != ""
    ensures PrevKey(mode) !in storage || storage[PrevKey(mode)].text == "" ==> r == "0"
    ensures PrevKey(mode) in storage && storage[PrevKey(mode)].text != "" ==> r == storage[PrevKey(mode)].text
  {
    if PrevKey(mode) in storage && storage[PrevKey(mode)].text != "" then storage[PrevKey(mode)].text
    else "0"
  }

  /** `savedHistory ? JSON.parse(savedHistory) : []`: no value or an empty
      one gives the empty list; a serialised list parses back; any other text
      fails to parse (`None`). Only text stored under the history key can fail,
      and a non-empty loaded history is exactly the list serialised there. */
  function LoadedHistory(storage: Storage, mode: Mode): (r: Option<seq<HistoryEntry>>)
    ensures r.None? ==> HistKey(mode) in storage && storage[HistKey(mode)].Text?
    ensures r.Some? && r.value != [] ==> HistKey(mode) in storage && storage[HistKey(mode)] == Json(r.value)
  {
    if HistKey(mode) !in storage then Some([])
    else
      match storage[HistKey(mode)]
      case Json(entries) => Some(entries)
      case Text(text) => if text == "" then Some([]) else None
  }

  /** First launch: with nothing stored, the previous reading loads as "0"
      and the history as the empty list; an empty stored history also loads
      as the empty list. */
  lemma FreshStorageLoadsDefaults(m: Mode)
    ensures LoadedPrev(map[], m) == "0"
    ensures LoadedHistory(map[], m) == Some([])
    ensures LoadedHistory(map[HistKey(m) := Text("")], m) == Some([])
  {
  }

  /** The storage after both writes of a save in `mode`. */
  function Persisted(storage: Storage, mode: Mode, reading: string, history: seq<HistoryEntry>): Storage {
    storage[PrevKey(mode) := Text(reading)][HistKey(mode) := Json(history)]
  }

  /** What both writes of a save store is what a later load reads back, and a
      save in one category leaves what the other category loads untouched. */
  lemma PersistThenLoad(storage: Storage, mode: Mode, reading: string, history: seq<HistoryEntry>, other: Mode)
    requires Consistent(storage) && reading != "" && other != mode
    ensures Consistent(Persisted(storage, mode, reading, history))
    ensures LoadedPrev(Persisted(storage, mode, reading, history), mode) == reading
    ensures LoadedHistory(Persisted(storage, mode, reading, history), mode) == Some(history)
    ensures LoadedPrev(Persisted(storage, mode, reading, history), other) == LoadedPrev(storage, other)
    ensures LoadedHistory(Persisted(storage, mode, reading, history), other) == LoadedHistory(storage, other)
  {
    ReadingWriteThenLoad(storage, mode, reading, other);
    HistoryWriteThenLoad(storage[PrevKey(mode) := Text(reading)], mode, history, other);
  }

  /** The second write of a save changes only what `mode` loads as its history. */
  lemma HistoryWriteThenLoad(storage: Storage, mode: Mode, history: seq<HistoryEntry>, other: Mode)
    requires Consistent(storage) && other != mode
    ensures Consistent(storage[HistKey(mode) := Json(history)])
    ensures LoadedPrev(storage[HistKey(mode) := Json(history)], mode) == LoadedPrev(storage, mode)
    ensures LoadedHistory(storage[HistKey(mode) := Json(history)], mode) == Some(history)
    ensures LoadedPrev(storage[HistKey(mode) := Json(history)], other) == LoadedPrev(storage, other)
    ensures LoadedHistory(storage[HistKey(mode) := Json(history)], other) == LoadedHistory(storage, other)
  {
    KeysSeparate(mode, other);
    KeysSeparate(mode, mode);
    KeysSeparate(other, mode);
    var written := storage[HistKey(mode) := Json(history)];
    assert written[HistKey(mode)] == Json(history);
    assert PrevKey(mode) in written <==> PrevKey(mode) in storage;
    assert PrevKey(other) in written <==> PrevKey(other) in storage;
    assert HistKey(other) in written <==> HistKey(other) in storage;
    assert PrevKey(mode) in storage ==> written[PrevKey(mode)] == storage[PrevKey(mode)];
    assert PrevKey(other) in storage ==> written[PrevKey(other)] == storage[PrevKey(other)];
    assert HistKey(other) in storage ==> written[HistKey(other)] == storage[HistKey(other)];
    forall m: Mode | PrevKey(m) in written
      ensures written[PrevKey(m)].Text?
    {
      if m != mode {
        assert m == other;
      }
    }
  }

  /** When only the first write of a save takes place, a later load reads the
      new reading with the old history, and the other category loads what it
      did before. */
  lemma ReadingWriteThenLoad(storage: Storage, mode: Mode, reading: string, other: Mode)
    requires Consistent(storage) && reading != "" && other != mode
    ensures Consistent(storage[PrevKey(mode) := Text(reading)])
    ensures LoadedPrev(storage[PrevKey(mode) := Text(reading)], mode) == reading
    ensures LoadedHistory(storage[PrevKey(mode) := Text(reading)], mode) == LoadedHistory(storage, mode)
    ensures LoadedPrev(storage[PrevKey(mode) := Text(reading)], other) == LoadedPrev(storage, other)
    ensures LoadedHistory(storage[PrevKey(mode) := Text(reading)], other) == LoadedHistory(storage, other)
  {
    KeysSeparate(mode, other);
    KeysSeparate(mode, mode);
    KeysSeparate(other, mode);
    var written := storage[PrevKey(mode) := Text(reading)];
    assert written[PrevKey(mode)] == Text(reading);
    assert HistKey(mode) in written <==> HistKey(mode) in storage;
    assert PrevKey(other) in written <==> PrevKey(other) in storage;
    assert HistKey(other) in written <==> HistKey(other) in storage;
    assert HistKey(mode) in storage ==> written[HistKey(mode)] == storage[HistKey(mode)];
    assert PrevKey(other) in storage ==> written[PrevKey(other)] == storage[PrevKey(other)];
    assert HistKey(other) in storage ==> written[HistKey(other)] == storage[HistKey(other)];
    forall m: Mode | PrevKey(m) in written
      ensures written[PrevKey(m)].Text?
    {
      if m != mode {
        assert m == other;
      }
    }
  }

  /** How a save ended, as the alert the screen shows: "Success", "Check your
      readings" or "Save failed.". */
  datatype SaveOutcome = Saved | Rejected | WriteFailed

  /** The screen's state: the selected category, the date fixed when the
      screen was created, the four text fields, the history on display, and
      the device storage. */
  class UtilityScreen {
    var mode: Mode
    const date: string
    var prevSub: string
    var currSub: string
    var majorCons: string
    var majorBill: string
    var history: seq<HistoryEntry>
    var storage: Storage

    ghost predicate Valid()
      reads this
    {
      Consistent(storage)
    }

    /** The screen as first rendered, before the mount effect loads anything. */
    constructor (today: string, stored: Storage)
      requires Consistent(stored)
      ensures Valid()
      ensures mode == Electricity && date == today && storage == stored
      ensures prevSub == "" && currSub == "" && majorCons == "" && majorBill == "" && history == []
    {
      mode := Electricity;
      date := today;
      prevSub, currSub, majorCons, majorBill := "", "", "", "";
      history := [];
      storage := stored;
    }

    /** The numbers the live calculation reads from the fields. */
    function Fields(): Inputs
      reads this
    {
      Read(prevSub, currSub, majorCons, majorBill)
    }

    /** `AsyncStorage.setItem`: stores `value` under `key` when the write
        succeeds, and changes nothing when it fails. */
    method SetItem(key: string, value: Stored, succeeds: bool) returns (ok: bool)
      requires Valid()
      requires value.Text? || key !in {PrevKey(Electricity), PrevKey(Water)}
      modifies this`storage
      ensures Valid()
      ensures ok == succeeds
      ensures storage == if succeeds then old(storage)[key := value] else old(storage)
    {
      ok := succeeds;
      if succeeds {
        storage := storage[key := value];
      }
    }

    /** `loadData`: reads the category's reading and then its history; when
        either read fails nothing changes. Otherwise the reading is set
        (missing or empty becomes "0") and then the history (missing or empty
        becomes the empty list); when the history does not parse, the reading
        is already set and the history on display stays what it was. */
    method Load(prevReadOk: bool, histReadOk: bool)
      requires Valid()
      modifies this`prevSub, this`history
      ensures Valid()
      ensures !(prevReadOk && histReadOk) ==> prevSub == old(prevSub) && history == old(history)
      ensures prevReadOk && histReadOk ==>
                prevSub == LoadedPrev(storage, mode) && history == LoadedHistory(storage, mode).GetOr(old(history))
    {
      if !prevReadOk || !histReadOk {
        return;
      }
      prevSub := LoadedPrev(storage, mode);
      var loaded := LoadedHistory(storage, mode);
      if loaded.Some? {
        history := loaded.value;
      }
    }

    /** Tapping a category tab: selecting another category runs the load for
        that category's keys; selecting the current one changes nothing. The
        text fields being typed are kept. */
    method SelectMode(m: Mode, prevReadOk: bool, histReadOk: bool)
      requires Valid()
      modifies this`mode, this`prevSub, this`history
      ensures Valid() && mode == m
      ensures m == old(mode) || !(prevReadOk && histReadOk) ==> prevSub == old(prevSub) && history == old(history)
      ensures m != old(mode) && prevReadOk && histReadOk ==>
                prevSub == LoadedPrev(storage, m) && history == LoadedHistory(storage, m).GetOr(old(history))
    {
      if m != mode {
        mode := m;
        Load(prevReadOk, histReadOk);
      }
    }

    /** `saveData`: refuses an empty or regressive current reading; otherwise
        writes the reading, then the history with the new entry in front
        (at most `MaxHistory` entries), and only when both writes succeed
        moves the reading into the previous reading, clears the current one
        and shows the new history. */
    method Save(id: int, prevWriteOk: bool, histWriteOk: bool) returns (outcome: SaveOutcome)
      requires Valid()
      modifies this`storage, this`prevSub, this`currSub, this`history
      ensures Valid()
      ensures outcome == if old(currSub) == "" || IsError(old(Fields())) then Rejected
                         else if prevWriteOk && histWriteOk then Saved
                         else WriteFailed
      ensures outcome != Saved ==> prevSub == old(prevSub) && currSub == old(currSub) && history == old(history)
      ensures outcome == Rejected || !prevWriteOk ==> storage == old(storage)
      ensures outcome == WriteFailed && prevWriteOk ==>
                storage == old(storage)[PrevKey(mode) := Text(old(currSub))]
      ensures outcome == Saved ==>
                && history == Pushed(HistoryEntry(id, date, Consumption(old(Fields()).prev, old(Fields()).curr),
                                                  BillShare(old(Fields()))), old(history))
                && prevSub == old(currSub) && currSub == ""
                && storage == Persisted(old(storage), mode, old(currSub), history)
      ensures outcome == Saved ==> LoadedPrev(storage, mode) == prevSub && LoadedHistory(storage, mode) == Some(history)
    {
      var fields := Fields();
      if currSub == "" || IsError(fields) {
        return Rejected;
      }
      var entry := HistoryEntry(id, date, Consumption(fields.prev, fields.curr), BillShare(fields));
      var updated := Pushed(entry, history);
      var before := storage;
      var ok := SetItem(PrevKey(mode), Text(currSub), prevWriteOk);
      if !ok {
        return WriteFailed;
      }
      KeysSeparate(mode, Electricity);
      KeysSeparate(mode, Water);
      ok := SetItem(HistKey(mode), Json(updated), histWriteOk);
      if !ok {
        return WriteFailed;
      }
      history := updated;
      prevSub := currSub;
      currSub := "";
      PersistThenLoad(before, mode, prevSub, history, if mode == Electricity then Water else Electricity);
      return Saved;
    }

    /** The Clear button: empties the current reading and the major usage and
        bill; the previous reading and the history stay. */
    method Clear()
      modifies this`currSub, this`majorCons, this`majorBill
      ensures currSub == "" && majorCons == "" && majorBill == ""
    {
      currSub, majorCons, majorBill := "", "", "";
    }
  }
}
