/**
  The persisted entry store (`src/hooks/useLogStore.ts`): a list of entries,
  newest first, with add, update, delete and lookup by id.  The generated id
  and the clock reading are parameters of the operations, and the
  persistence middleware is not part of this model.
*/
module LogStore {
  import opened Wrappers
  import opened Types
  import opened Seqs

  /** `Omit<LogEntry, "id" | "createdAt" | "updatedAt">`: what the caller supplies. */
  datatype LogDraft = LogDraft(
    title: string,
    description: string,
    mood: Mood,
    workType: WorkType,
    energyLevel: Level,
    meaningLevel: Level,
    date: Timestamp,
    userId: string)

  /** `Partial<LogEntry>`: each field is None when the patch leaves it out. */
  datatype LogPatch = LogPatch(
    id: Option<string>,
    title: Option<string>,
    description: Option<string>,
    mood: Option<Mood>,
    workType: Option<WorkType>,
    energyLevel: Option<Level>,
    meaningLevel: Option<Level>,
    date: Option<Timestamp>,
    createdAt: Option<Timestamp>,
    updatedAt: Option<Timestamp>,
    userId: Option<string>)

  const EmptyPatch := LogPatch(None, None, None, None, None, None, None, None, None, None, None)

  /** `{ ...log, id, createdAt: now, updatedAt: now }`. */
  function NewLog(draft: LogDraft, id: string, now: Timestamp): LogEntry
  {
    LogEntry(id, draft.title, draft.description, draft.mood, draft.workType,
             draft.energyLevel, draft.meaningLevel, draft.date, now, now, draft.userId)
  }

  /** A new entry carries every supplied field, the given id, and is created and updated at `now`. */
  lemma NewLogFields(draft: LogDraft, id: string, now: Timestamp)
    ensures var e := NewLog(draft, id, now);
      && e.id == id && e.createdAt == now && e.updatedAt == now
      && e.title == draft.title && e.description == draft.description && e.mood == draft.mood
      && e.workType == draft.workType && e.energyLevel == draft.energyLevel
      && e.meaningLevel == draft.meaningLevel && e.date == draft.date && e.userId == draft.userId
  {
  }

  /** `{ ...log, ...patch, updatedAt: now }`: the patch's fields win, and `updatedAt` is always `now`. */
  function Merge(log: LogEntry, patch: LogPatch, now: Timestamp): LogEntry
  {
    LogEntry(
      patch.id.GetOr(log.id),
      patch.title.GetOr(log.title),
      patch.description.GetOr(log.description),
      patch.mood.GetOr(log.mood),
      patch.workType.GetOr(log.workType),
      patch.energyLevel.GetOr(log.energyLevel),
      patch.meaningLevel.GetOr(log.meaningLevel),
      patch.date.GetOr(log.date),
      patch.createdAt.GetOr(log.createdAt),
      now,
      patch.userId.GetOr(log.userId))
  }

  /**
    An empty patch only moves `updatedAt`; applying the same patch twice at
    the same time is applying it once; the patch's `updatedAt` is never used.
  */
  lemma MergeLaws(log: LogEntry, patch: LogPatch, now: Timestamp)
    ensures Merge(log, EmptyPatch, now) == log.(updatedAt := now)
    ensures Merge(Merge(log, patch, now), patch, now) == Merge(log, patch, now)
    ensures Merge(log, patch.(updatedAt := None), now) == Merge(log, patch, now)
    ensures Merge(log, patch, now).updatedAt == now
  {
  }

  /** `logs.map((log) => log.id === id ? merged : log)`. */
  function UpdateAll(logs: seq<LogEntry>, id: string, patch: LogPatch, now: Timestamp): (r: seq<LogEntry>)
    ensures |r| == |logs|
    ensures forall i :: 0 <= i < |logs| ==> r[i] == if logs[i].id == id then Merge(logs[i], patch, now) else logs[i]
  {
    if logs == [] then [] else [if logs[0].id == id then Merge(logs[0], patch, now) else logs[0]] + UpdateAll(logs[1..], id, patch, now)
  }

  /** Updating an id that no entry has changes nothing. */
  lemma UpdateAbsent(logs: seq<LogEntry>, id: string, patch: LogPatch, now: Timestamp)
    requires forall i :: 0 <= i < |logs| ==> logs[i].id != id
    ensures UpdateAll(logs, id, patch, now) == logs
  {
  }

  /** An update that keeps the id leaves every other id's entries, and what is found under any other id, as they were. */
  lemma {:induction false} UpdateKeepsOthers(logs: seq<LogEntry>, id: string, patch: LogPatch, now: Timestamp, other: string)
    requires patch.id.None? && other != id
    ensures WithoutId(UpdateAll(logs, id, patch, now), id) == WithoutId(logs, id)
    ensures FindById(UpdateAll(logs, id, patch, now), other) == FindById(logs, other)
  {
    var r := UpdateAll(logs, id, patch, now);
    if logs != [] {
      UpdateKeepsOthers(logs[1..], id, patch, now, other);
      assert r[1..] == UpdateAll(logs[1..], id, patch, now);
      assert r[0].id == logs[0].id;
    }
  }

  class LogStore {
    var logs: seq<LogEntry>

    /** `logs: []`. */
    constructor ()
      ensures logs == []
    {
      logs := [];
    }

    /** `addLog(log)`: the new entry goes in front of the old ones. */
    method AddLog(draft: LogDraft, id: string, now: Timestamp)
      modifies this
      ensures logs == [NewLog(draft, id, now)] + old(logs)
      ensures |logs| == |old(logs)| + 1 && logs[1..] == old(logs)
    {
      var newLog := NewLog(draft, id, now);
      logs := [newLog] + logs;
    }

    /** `updateLog(id, patch)`: every entry with that id is merged with the patch, in place. */
    method UpdateLog(id: string, patch: LogPatch, now: Timestamp)
      modifies this
      ensures logs == UpdateAll(old(logs), id, patch, now)
    {
      logs := UpdateAll(logs, id, patch, now);
    }

    /** `deleteLog(id)`: the entries with that id are dropped, the rest keep their order. */
    method DeleteLog(id: string)
      modifies this
      ensures logs == WithoutId(old(logs), id)
      ensures FindById(logs, id).None?
    {
      WithoutIdSpec(logs, id);
      logs := WithoutId(logs, id);
    }

    /** `getLog(id)`: the first entry with that id, if any; the store is not changed. */
    method GetLog(id: string) returns (r: Option<LogEntry>)
      ensures r.None? <==> forall i :: 0 <= i < |logs| ==> logs[i].id != id
      ensures r.Some? ==> r.value in logs && r.value.id == id
      ensures r == FindById(logs, id)
    {
      r := FindById(logs, id);
    }
  }

  /** Looking up an id right after deleting it finds nothing. */
  method DeleteThenGet(store: LogStore, id: string) returns (r: Option<LogEntry>)
    modifies store
    ensures store.logs == WithoutId(old(store.logs), id)
    ensures r.None?
  {
    store.DeleteLog(id);
    r := store.GetLog(id);
  }
}
