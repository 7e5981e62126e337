/** The analysis history kept in browser storage (lib/history.ts): a list
    of entries, most recent first, capped at 100 entries. The storage slot
    is a field of `HistoryStore`; every operation reads the slot, changes
    the list and writes it back. */
module History {
  import opened Common

  const MaxHistoryItems: nat := 100

  /** A saved analysis. The analysis result, metadata, hashes and preview
      are carried along unchanged by every operation and are not modelled. */
  datatype Item = Item(
    id: string,
    timestamp: int,
    fileName: string,
    fileSize: nat,
    notes: Option<string>)

  /** What `saveToHistory` receives: an item without id and timestamp. */
  datatype Draft = Draft(fileName: string, fileSize: nat, notes: Option<string>)

  /** The storage slot: nothing stored, text that does not parse, or a list. */
  datatype Slot = Absent | Unparsable | Stored(items: seq<Item>)

  /** The list `getHistory` reads from a slot. */
  function Decode(slot: Slot): seq<Item>
  {
    if slot.Stored? then slot.items else []
  }

  /** `analysis-<time>-<random>`: the id `saveToHistory` builds from the
      clock reading and the base-36 random suffix. */
  function MakeId(time: nat, suffix: string): (id: string)
    ensures IsPrefix("analysis-", id)
  {
    "analysis-" + Decimal(time) + "-" + suffix
  }

  /** The stored list after `unshift` and `splice(100)`. */
  function Prepend(history: seq<Item>, item: Item): (r: seq<Item>)
    ensures |r| == Min(|history| + 1, MaxHistoryItems)
    ensures r[0] == item
    ensures r[1..] == history[..|r| - 1]
  {
    var h := [item] + history;
    if |h| > MaxHistoryItems then h[..MaxHistoryItems] else h
  }

  /** Position of the first entry with this id, as `find` scans. */
  function IndexOf(history: seq<Item>, id: string): (r: Option<nat>)
    ensures r.Some? ==> r.value < |history| && history[r.value].id == id
    ensures r.Some? ==> forall j :: 0 <= j < r.value ==> history[j].id != id
    ensures r.None? <==> forall j :: 0 <= j < |history| ==> history[j].id != id
  {
    if history == [] then None
    else if history[0].id == id then Some(0)
    else match IndexOf(history[1..], id)
      case None => None
      case Some(k) => Some(k + 1)
  }

  /** `history.find(item => item.id === id) || null`. */
  function Find(history: seq<Item>, id: string): (r: Option<Item>)
    ensures r.None? <==> forall j :: 0 <= j < |history| ==> history[j].id != id
    ensures r.Some? ==> r.value.id == id && r.value in history
  {
    match IndexOf(history, id)
    case None => None
    case Some(k) => Some(history[k])
  }

  function DifferentId(id: string): Item -> bool
  {
    (x: Item) => x.id != id
  }

  /** The list `deleteHistoryItem` writes back. */
  function Without(history: seq<Item>, id: string): seq<Item>
  {
    Filter(history, DifferentId(id))
  }

  /** Deleting keeps exactly the entries with another id, in their order. */
  lemma WithoutKeepsOthers(history: seq<Item>, id: string)
    ensures forall x :: x in Without(history, id) <==> x in history && x.id != id
    ensures Subsequence(Without(history, id), history)
  {
    forall x | x in history && x.id != id
      ensures x in Without(history, id)
    {
      FilterKeeps(history, DifferentId(id), x);
    }
    FilterIsSubsequence(history, DifferentId(id));
  }

  /** The list after `item.notes = notes` on the entry `find` returned. */
  function WithNotes(history: seq<Item>, id: string, notes: string): (r: seq<Item>)
    ensures |r| == |history|
  {
    if history == [] then []
    else if history[0].id == id then [history[0].(notes := Some(notes))] + history[1..]
    else [history[0]] + WithNotes(history[1..], id, notes)
  }

  /** Only the first entry with the id changes, and only its notes. */
  lemma {:induction false} WithNotesChangesFirstMatch(history: seq<Item>, id: string, notes: string)
    ensures IndexOf(history, id).None? ==> WithNotes(history, id, notes) == history
    ensures IndexOf(history, id).Some? ==>
      var k := IndexOf(history, id).value;
      && WithNotes(history, id, notes)[k] == history[k].(notes := Some(notes))
      && forall j :: 0 <= j < |history| && j != k ==> WithNotes(history, id, notes)[j] == history[j]
  {
    if history != [] && history[0].id != id {
      WithNotesChangesFirstMatch(history[1..], id, notes);
    }
  }

  /** The `localStorage` slot of the history. It may hold a list of any
      length, since the handlers accept whatever is stored; only `Save` cuts
      what it writes to the cap. */
  class HistoryStore {
    var slot: Slot

    constructor ()
      ensures slot == Absent
    {
      slot := Absent;
    }

    /** `getHistory`: the stored list, or the empty list when nothing is
        stored or the stored text does not parse. */
    method GetHistory() returns (items: seq<Item>)
      ensures slot.Stored? ==> items == slot.items
      ensures !slot.Stored? ==> items == []
    {
      items := Decode(slot);
    }

    /** `saveToHistory`. `idTime` and `now` are the two `Date.now()`
        readings, `suffix` the random part of the id, and `writeOk` says
        whether `localStorage.setItem` succeeded. */
    method Save(draft: Draft, idTime: nat, suffix: string, now: int, writeOk: bool) returns (id: string)
      modifies this
      ensures id == MakeId(idTime, suffix)
      ensures writeOk ==> slot.Stored? && |slot.items| <= MaxHistoryItems
      ensures writeOk ==> slot == Stored(Prepend(old(Decode(slot)), Item(id, now, draft.fileName, draft.fileSize, draft.notes)))
      ensures !writeOk ==> slot == old(slot)
    {
      var history := GetHistory();
      id := MakeId(idTime, suffix);
      var item := Item(id, now, draft.fileName, draft.fileSize, draft.notes);
      history := [item] + history;
      if |history| > MaxHistoryItems {
        history := history[..MaxHistoryItems];
      }
      if writeOk {
        slot := Stored(history);
      }
    }

    /** `getHistoryItem`. */
    method GetItem(id: string) returns (r: Option<Item>)
      ensures r.None? <==> forall j :: 0 <= j < |Decode(slot)| ==> Decode(slot)[j].id != id
      ensures r.Some? ==> exists k :: 0 <= k < |Decode(slot)| && Decode(slot)[k] == r.value
                                && r.value.id == id
                                && forall j :: 0 <= j < k ==> Decode(slot)[j].id != id
    {
      var history := GetHistory();
      assert history == Decode(slot);
      r := Find(history, id);
      if r.Some? {
        var k := IndexOf(history, id).value;
        assert history[k] == r.value;
      }
    }

    /** `deleteHistoryItem`: the result is whether the write succeeded. */
    method Delete(id: string, writeOk: bool) returns (ok: bool)
      modifies this
      ensures ok == writeOk
      ensures writeOk ==> slot == Stored(Without(old(Decode(slot)), id))
      ensures !writeOk ==> slot == old(slot)
    {
      var history := GetHistory();
      var filtered := Without(history, id);
      if writeOk {
        slot := Stored(filtered);
      }
      ok := writeOk;
    }

    /** `clearHistory`: the result is whether the removal succeeded. */
    method Clear(removeOk: bool) returns (ok: bool)
      modifies this
      ensures ok == removeOk
      ensures removeOk ==> slot == Absent
      ensures !removeOk ==> slot == old(slot)
    {
      if removeOk {
        slot := Absent;
      }
      ok := removeOk;
    }

    /** `updateHistoryNotes`: false and no write when no entry has the id. */
    method UpdateNotes(id: string, notes: string, writeOk: bool) returns (ok: bool)
      modifies this
      ensures Find(old(Decode(slot)), id).None? ==> !ok && slot == old(slot)
      ensures Find(old(Decode(slot)), id).Some? ==> ok == writeOk
      ensures Find(old(Decode(slot)), id).Some? && writeOk ==>
                slot == Stored(WithNotes(old(Decode(slot)), id, notes))
      ensures !writeOk ==> slot == old(slot)
    {
      var history := GetHistory();
      var item := Find(history, id);
      if item.None? {
        return false;
      }
      if writeOk {
        slot := Stored(WithNotes(history, id, notes));
      }
      ok := writeOk;
    }
  }

  /** After a successful clear, reading the history gives the empty list. */
  method ClearThenRead(store: HistoryStore) returns (items: seq<Item>)
    modifies store
    ensures items == []
  {
    var _ := store.Clear(true);
    items := store.GetHistory();
  }
}
