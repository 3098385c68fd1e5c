/** The on-device record store (src/services/database.ts): one object
    store, `collections`, keyed on `id`, with indexes on `synced` and
    `timestamp`. The store's contents are a map from id to record; the
    IndexedDB connection is the `isOpen` flag that `init` sets. */
module Database {
  import opened CollectionTypes

  const DbVersion: nat := 1
  const SyncedIndex := "synced"
  const TimestampIndex := "timestamp"

  datatype DbError =
    | NotInitialized   // thrown by every public operation before `init` succeeded
    | OpenFailed       // the open request's `onerror`
    | VersionError     // the on-device database is newer than version 1
    | IndexMissing     // `store.index('synced')` on a store without that index

  datatype Outcome = Pass | Fail(error: DbError)

  datatype Result<T> = Ok(value: T) | Err(error: DbError)

  /** The store is keyed on `id`: every record sits under its own id. */
  ghost predicate Keyed(m: map<string, CollectionRecord>) {
    forall id :: id in m ==> m[id].id == id
  }

  /** The ids a query returns: all of them, or those whose `synced` index entry is 0. */
  function Selected(m: map<string, CollectionRecord>, pendingOnly: bool): set<string> {
    set id | id in m && (pendingOnly ==> m[id].synced == Pending)
  }

  function UnsyncedIds(m: map<string, CollectionRecord>): set<string> {
    Selected(m, true)
  }

  function IdsOf(rs: seq<CollectionRecord>): set<string> {
    set i | 0 <= i < |rs| :: rs[i].id
  }

  predicate DistinctIds(rs: seq<CollectionRecord>) {
    forall i, j :: 0 <= i < j < |rs| ==> rs[i].id != rs[j].id
  }

  /** `rs` is an (unordered) listing of the records a query on `m` selects:
      each selected record exactly once, as stored, and nothing else. */
  ghost predicate Lists(rs: seq<CollectionRecord>, m: map<string, CollectionRecord>, pendingOnly: bool) {
    && DistinctIds(rs)
    && (forall i :: 0 <= i < |rs| ==> rs[i].id in m && m[rs[i].id] == rs[i])
    && IdsOf(rs) == Selected(m, pendingOnly)
  }

  /** The store after `markAsSynced(id)` stamped at `now`. */
  function MarkOne(m: map<string, CollectionRecord>, id: string, now: string): map<string, CollectionRecord> {
    if id in m then m[id := m[id].(synced := Synced, syncedAt := Some(now))] else m
  }

  lemma {:induction false} DistinctCard(rs: seq<CollectionRecord>)
    requires DistinctIds(rs)
    ensures |IdsOf(rs)| == |rs|
  {
    if rs != [] {
      var init := rs[..|rs| - 1];
      DistinctCard(init);
      assert IdsOf(rs) == IdsOf(init) + {rs[|rs| - 1].id};
      assert rs[|rs| - 1].id !in IdsOf(init);
    }
  }

  lemma IdsOfAppend(rs: seq<CollectionRecord>, r: CollectionRecord)
    ensures IdsOf(rs + [r]) == IdsOf(rs) + {r.id}
  {
    var rs' := rs + [r];
    assert rs'[|rs|] == r;
    forall i | 0 <= i < |rs| ensures rs'[i] == rs[i] { }
  }

  /** Marking one id changes that record's `synced` and `syncedAt` and
      nothing else, and takes it out of the pending set. */
  lemma MarkOneEffect(m: map<string, CollectionRecord>, id: string, now: string)
    requires Keyed(m)
    ensures var m' := MarkOne(m, id, now);
      && Keyed(m') && m'.Keys == m.Keys
      && (id in m ==> m'[id] == m[id].(synced := Synced, syncedAt := Some(now)))
      && (forall k :: k in m && k != id ==> m'[k] == m[k])
      && UnsyncedIds(m') == UnsyncedIds(m) - {id}
  {
    var m' := MarkOne(m, id, now);
    assert UnsyncedIds(m') == UnsyncedIds(m) - {id} by {
      forall k ensures k in UnsyncedIds(m') <==> k in UnsyncedIds(m) && k != id {
        if k == id && id in m { assert m'[id].synced == Synced; }
      }
    }
  }

  /** The loop invariant of `Collect`: `rs` lists, as stored and once
      each, the selected records whose ids are no longer `remaining`. */
  ghost predicate Collected(m: map<string, CollectionRecord>, pendingOnly: bool,
                            rs: seq<CollectionRecord>, remaining: set<string>)
  {
    && remaining <= m.Keys
    && DistinctIds(rs)
    && (forall i :: 0 <= i < |rs| ==> rs[i].id in m && m[rs[i].id] == rs[i] && rs[i].id !in remaining)
    && IdsOf(rs) == Selected(m, pendingOnly) - remaining
  }

  /** One step of `Collect`: `id` leaves `remaining`, and its record is
      appended exactly when the query selects it. */
  lemma CollectStep(m: map<string, CollectionRecord>, pendingOnly: bool, rs: seq<CollectionRecord>,
                    remaining: set<string>, id: string)
    requires Keyed(m) && Collected(m, pendingOnly, rs, remaining) && id in remaining
    ensures Collected(m, pendingOnly,
                      if !pendingOnly || m[id].synced == Pending then rs + [m[id]] else rs,
                      remaining - {id})
  {
    if !pendingOnly || m[id].synced == Pending {
      IdsOfAppend(rs, m[id]);
      var rs' := rs + [m[id]];
      assert forall i :: 0 <= i < |rs| ==> rs'[i] == rs[i];
    } else {
      assert id !in Selected(m, pendingOnly);
    }
  }

  /** When nothing remains, the listing is complete. */
  lemma CollectDone(m: map<string, CollectionRecord>, pendingOnly: bool, rs: seq<CollectionRecord>)
    requires Collected(m, pendingOnly, rs, {})
    ensures Lists(rs, m, pendingOnly) && |rs| == |Selected(m, pendingOnly)|
  {
    DistinctCard(rs);
  }

  /** Lists the records of `m` that the query selects, in no particular
      order: IndexedDB's `getAll` on the store or on the `synced` index. */
  method Collect(m: map<string, CollectionRecord>, pendingOnly: bool) returns (rs: seq<CollectionRecord>)
    requires Keyed(m)
    ensures Lists(rs, m, pendingOnly)
    ensures |rs| == |Selected(m, pendingOnly)|
  {
    rs := [];
    var remaining := m.Keys;
    while remaining != {}
      invariant Collected(m, pendingOnly, rs, remaining)
      decreases remaining
    {
      var id :| id in remaining;
      CollectStep(m, pendingOnly, rs, remaining, id);
      if !pendingOnly || m[id].synced == Pending {
        rs := rs + [m[id]];
      }
      remaining := remaining - {id};
    }
    CollectDone(m, pendingOnly, rs);
  }

  class IndexedDbService {
    /** `db` of the source: set once the open request succeeded. */
    var isOpen: bool
    /** What persists on the device between sessions. */
    var version: nat
    var hasStore: bool
    var indexNames: set<string>
    var records: map<string, CollectionRecord>

    ghost predicate Valid()
      reads this
    {
      && Keyed(records)
      && (!hasStore ==> records == map[])
      && (version >= DbVersion ==> hasStore)
      && (isOpen ==> version == DbVersion)
    }

    /** The pending-records query can run: the connection is open and the
        store carries the `synced` index. */
    predicate Queryable()
      reads this
    {
      isOpen && SyncedIndex in indexNames
    }

    /** A service over whatever the device already holds; no connection yet. */
    constructor (version: nat, hasStore: bool, indexNames: set<string>, records: map<string, CollectionRecord>)
      requires Keyed(records)
      requires !hasStore ==> records == map[]
      requires version >= DbVersion ==> hasStore
      ensures Valid() && !isOpen
      ensures this.version == version && this.hasStore == hasStore
      ensures this.indexNames == indexNames && this.records == records
    {
      this.isOpen := false;
      this.version := version;
      this.hasStore := hasStore;
      this.indexNames := indexNames;
      this.records := records;
    }

    /** Opens the database at version 1. The upgrade step runs only when the
        device holds an older version; it creates the store with both indexes
        when it is absent, and otherwise adds a missing `synced` index. No
        record is ever touched. */
    method Init(openSucceeds: bool) returns (res: Outcome)
      requires Valid()
      modifies this
      ensures Valid()
      ensures records == old(records)
      ensures res == (if !openSucceeds then Fail(OpenFailed)
                      else if old(version) > DbVersion then Fail(VersionError)
                      else Pass)
      ensures res.Fail? ==> unchanged(this)
      ensures res.Pass? ==> isOpen && hasStore && version == DbVersion
      ensures res.Pass? && old(version) < DbVersion && !old(hasStore) ==>
                indexNames == {SyncedIndex, TimestampIndex}
      ensures res.Pass? && old(version) < DbVersion && old(hasStore) ==>
                indexNames == old(indexNames) + {SyncedIndex}
      ensures res.Pass? && old(version) >= DbVersion ==> indexNames == old(indexNames)
    {
      if !openSucceeds {
        return Fail(OpenFailed);
      }
      if version > DbVersion {
        return Fail(VersionError);
      }
      if version < DbVersion {
        if !hasStore {
          hasStore := true;
          indexNames := {SyncedIndex, TimestampIndex};
        } else if SyncedIndex !in indexNames {
          indexNames := indexNames + {SyncedIndex};
        }
        version := DbVersion;
      }
      isOpen := true;
      res := Pass;
    }

    /** `store.put`: an upsert by id, last write wins. */
    method SaveRecord(r: CollectionRecord) returns (res: Outcome)
      requires Valid()
      modifies this`records
      ensures Valid()
      ensures res == if isOpen then Pass else Fail(NotInitialized)
      ensures isOpen ==> records == old(records)[r.id := r]
      ensures !isOpen ==> records == old(records)
    {
      if !isOpen {
        return Fail(NotInitialized);
      }
      records := records[r.id := r];
      res := Pass;
    }

    method GetAllRecords() returns (res: Result<seq<CollectionRecord>>)
      requires Valid()
      ensures res.Err? <==> !isOpen
      ensures res.Err? ==> res.error == NotInitialized
      ensures res.Ok? ==> Lists(res.value, records, false) && |res.value| == |records|
    {
      if !isOpen {
        return Err(NotInitialized);
      }
      var rs := Collect(records, false);
      assert Selected(records, false) == records.Keys;
      return Ok(rs);
    }

    /** The `synced` index queried for the key 0. A store without that index
        makes `store.index` throw, which rejects the query. */
    method GetUnsyncedRecords() returns (res: Result<seq<CollectionRecord>>)
      requires Valid()
      ensures res.Err? <==> !Queryable()
      ensures res.Err? ==> res.error == (if !isOpen then NotInitialized else IndexMissing)
      ensures res.Ok? ==> Lists(res.value, records, true)
      ensures res.Ok? ==> |res.value| == |UnsyncedIds(records)|
      ensures res.Ok? ==> forall i :: 0 <= i < |res.value| ==> res.value[i].synced == Pending
    {
      if !isOpen {
        return Err(NotInitialized);
      }
      if SyncedIndex !in indexNames {
        return Err(IndexMissing);
      }
      var rs := Collect(records, true);
      forall i | 0 <= i < |rs| ensures rs[i].synced == Pending {
        assert rs[i].id in IdsOf(rs);
      }
      return Ok(rs);
    }

    /** The private `getRecord`, called only once the connection is open. */
    function GetRecord(id: string): (r: Option<CollectionRecord>)
      reads this
      requires isOpen
      ensures r.Some? <==> id in records
      ensures r.Some? ==> r.value == records[id]
    {
      if id in records then Some(records[id]) else None
    }

    /** Reads the record, sets `synced` to 1 and `syncedAt` to `now`, and
        saves it back; an absent id is silently ignored. */
    method MarkAsSynced(id: string, now: string) returns (res: Outcome)
      requires Valid()
      modifies this`records
      ensures Valid()
      ensures res == if isOpen then Pass else Fail(NotInitialized)
      ensures isOpen ==> records == MarkOne(old(records), id, now)
      ensures !isOpen ==> records == old(records)
    {
      if !isOpen {
        return Fail(NotInitialized);
      }
      var found := GetRecord(id);
      if found.Some? {
        var record := found.value.(synced := Synced, syncedAt := Some(now));
        res := SaveRecord(record);
      }
      res := Pass;
    }
  }
}
