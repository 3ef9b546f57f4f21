/**
  The energy/meaning matrix of the logs page (`src/components/log/matrix-view.tsx`):
  each entry becomes an item at (energy, meaning), drawn at percentage
  offsets inside the square, and clicking an item opens its entry.
*/
module MatrixView {
  import opened Wrappers
  import opened Types

  /** `({ x: log.energy_level, y: log.meaning_level, id, title, mood, date })`. */
  function ItemOf(log: LogEntry): MatrixItem
  {
    MatrixItem(log.energyLevel, log.meaningLevel, log.id, log.title, log.mood, log.date)
  }

  /** `logs.map(...)`: one item per entry, in order, with the entry's levels and identity. */
  function Items(logs: seq<LogEntry>): (r: seq<MatrixItem>)
    ensures |r| == |logs|
    ensures forall i :: 0 <= i < |logs| ==>
      && r[i].x == logs[i].energyLevel && r[i].y == logs[i].meaningLevel
      && r[i].id == logs[i].id && r[i].title == logs[i].title && r[i].mood == logs[i].mood && r[i].date == logs[i].date
  {
    if logs == [] then [] else [ItemOf(logs[0])] + Items(logs[1..])
  }

  /** `(item.x / 5) * 100`, the left offset in percent. */
  function Left(item: MatrixItem): real
  {
    (item.x as real / 5.0) * 100.0
  }

  /** `100 - (item.y / 5) * 100`, the top offset in percent. */
  function Top(item: MatrixItem): real
  {
    100.0 - (item.y as real / 5.0) * 100.0
  }

  /** Offsets are whole multiples of 20: left 20 * energy, top 100 - 20 * meaning. */
  lemma Positions(item: MatrixItem)
    ensures Left(item) == 20.0 * item.x as real
    ensures Top(item) == 100.0 - 20.0 * item.y as real
  {
  }

  /** Every item of an entry lies with left in [20, 100] and top in [0, 80]. */
  lemma ItemsInSquare(logs: seq<LogEntry>)
    ensures forall i :: 0 <= i < |logs| ==>
      20.0 <= Left(Items(logs)[i]) <= 100.0 && 0.0 <= Top(Items(logs)[i]) <= 80.0
  {
    var r := Items(logs);
    forall i | 0 <= i < |logs| ensures 20.0 <= Left(r[i]) <= 100.0 && 0.0 <= Top(r[i]) <= 80.0 {
      Positions(r[i]);
    }
  }

  /** More energy is further right, more meaning is higher up (a smaller top offset). */
  lemma PositionsMonotone(a: MatrixItem, b: MatrixItem)
    ensures a.x < b.x <==> Left(a) < Left(b)
    ensures a.y < b.y <==> Top(a) > Top(b)
  {
    Positions(a);
    Positions(b);
  }

  /**
    `safeTranslate(key, fallback)`: the translation, or the fallback when the
    lookup gives back the key (a missing translation).  `t` is the lookup
    of the language provider; it does not throw.
  */
  function SafeTranslate(t: string -> string, key: string, fallback: string): (r: string)
    ensures t(key) == key ==> r == fallback
    ensures t(key) != key ==> r == t(key)
  {
    var translated := t(key);
    if translated == key then fallback else translated
  }

  class MatrixView {
    var logs: seq<LogEntry>
    var matrixItems: seq<MatrixItem>
    var selectedLog: Option<LogEntry>
    var open: bool

    /** The initial state for the given entries. */
    constructor (logs: seq<LogEntry>)
      ensures this.logs == logs && matrixItems == [] && selectedLog == None && !open
    {
      this.logs := logs;
      matrixItems := [];
      selectedLog := None;
      open := false;
    }

    /** The effect on `logs`: the items are rebuilt from the entries. */
    method SyncItems()
      modifies this`matrixItems
      ensures matrixItems == Items(logs)
    {
      matrixItems := Items(logs);
    }

    /**
      `handleItemClick(id)`: the first entry with that id is selected and the
      dialog opened; with no such entry nothing changes.
    */
    method HandleItemClick(id: string)
      modifies this`selectedLog, this`open
      ensures FindById(logs, id).Some? ==> selectedLog == FindById(logs, id) && open
      ensures FindById(logs, id).None? ==> selectedLog == old(selectedLog) && open == old(open)
      ensures selectedLog.Some? && selectedLog != old(selectedLog) ==> selectedLog.value in logs && selectedLog.value.id == id
    {
      var log := FindById(logs, id);
      if log.Some? {
        selectedLog := log;
        open := true;
      }
    }
  }
}
