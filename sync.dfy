/** The sync service (src/services/sync.ts): pushes the pending records of
    the local store to the remote API one at a time, keeps a list of
    status listeners, and runs the pass on a single periodic interval.
    The network, the browser's connectivity flag, the clock and the timer
    runtime are inputs of the methods that read them. */
module Sync {
  import opened CollectionTypes
  import opened Database

  /** A listener is known only by its identity (the source compares callbacks with `!==`). */
  type Callback = nat

  type TimerId = nat

  const DefaultApiUrl := "http://localhost:3001/api"

  /** What `fetch` gives back for one POST: a response, or a rejection. */
  datatype Response =
    | HttpResponse(status: nat, statusText: string)
    | NetworkFailure(message: string)

  /** `response.ok`: a status in the 200 range. */
  predicate Accepted(r: Response) {
    r.HttpResponse? && 200 <= r.status <= 299
  }

  /** The `message` of the error the failed record raises. */
  function FailureMessage(r: Response): string {
    match r
    case HttpResponse(status, text) => "HTTP " + DecimalText(status) + ": " + text
    case NetworkFailure(message) => message
  }

  /** One `fetch`: a POST of the record, as JSON, to the URL. */
  datatype Post = Post(url: string, record: CollectionRecord)

  /** The POSTs of the records `rs` to `url`, in order. */
  function PostsTo(url: string, rs: seq<CollectionRecord>): seq<Post> {
    seq(|rs|, i requires 0 <= i < |rs| => Post(url, rs[i]))
  }

  /** One call of `listeners.forEach(callback => callback(status))`. */
  datatype Broadcast = Broadcast(recipients: seq<Callback>, status: SyncStatus)

  /** `localStorage.getItem('lastSyncAt') || undefined`. */
  function StoredLastSync(v: Option<string>): (r: Option<string>)
    ensures r.Some? <==> TruthyText(v)
    ensures r.Some? ==> r == v
  {
    if TruthyText(v) then v else None
  }

  /** The status announced at the start of a pass over `n` records. */
  function SyncingStatus(n: nat): SyncStatus {
    SyncStatus(true, true, None, n, None)
  }

  // ---------------------------------------------------------------- listeners

  /** `listeners.filter(cb => cb !== callback)`. */
  function Without(s: seq<Callback>, cb: Callback): (r: seq<Callback>)
    ensures cb !in r
  {
    if s == [] then []
    else (if s[0] == cb then [] else [s[0]]) + Without(s[1..], cb)
  }

  /** Unsubscribing removes every registration of the callback and keeps
      every other callback as often as it was registered. */
  lemma {:induction false} WithoutCounts(s: seq<Callback>, cb: Callback)
    ensures multiset(Without(s, cb)) == multiset(s)[cb := 0]
    ensures |Without(s, cb)| == |s| - multiset(s)[cb]
  {
    if s != [] {
      WithoutCounts(s[1..], cb);
      assert s == [s[0]] + s[1..];
    }
  }

  /** Filtering keeps the order of the other listeners: it distributes over
      concatenation, and leaves a list without the callback as it is. */
  lemma {:induction false} WithoutAppend(a: seq<Callback>, b: seq<Callback>, cb: Callback)
    ensures Without(a + b, cb) == Without(a, cb) + Without(b, cb)
  {
    if a != [] {
      assert (a + b)[1..] == a[1..] + b;
      WithoutAppend(a[1..], b, cb);
    } else {
      assert a + b == b;
    }
  }

  lemma {:induction false} WithoutAbsent(s: seq<Callback>, cb: Callback)
    requires cb !in s
    ensures Without(s, cb) == s
  {
    if s != [] {
      WithoutAbsent(s[1..], cb);
    }
  }

  /** Unsubscribing twice is the same as unsubscribing once. */
  lemma WithoutIdempotent(s: seq<Callback>, cb: Callback)
    ensures Without(Without(s, cb), cb) == Without(s, cb)
  {
    WithoutAbsent(Without(s, cb), cb);
  }

  // ---------------------------------------------------------------- the pass

  /** The index of the first record the remote refuses, or the snapshot's
      length when it accepts them all. */
  function FirstFailure(rs: seq<CollectionRecord>, remote: CollectionRecord -> Response): (k: nat)
    ensures k <= |rs|
    ensures forall j :: 0 <= j < k ==> Accepted(remote(rs[j]))
    ensures k < |rs| ==> !Accepted(remote(rs[k]))
  {
    if rs == [] then 0
    else if !Accepted(remote(rs[0])) then 0
    else 1 + FirstFailure(rs[1..], remote)
  }

  /** The records posted by a pass that stops at index `k`: the accepted
      prefix and, if any, the refused record. */
  function Attempted(rs: seq<CollectionRecord>, k: nat): seq<CollectionRecord>
    requires k <= |rs|
  {
    if k < |rs| then rs[..k + 1] else rs
  }

  /** The store after `markAsSynced` of each record of `rs`, in order. */
  function MarkAll(m: map<string, CollectionRecord>, rs: seq<CollectionRecord>, now: string): map<string, CollectionRecord>
  {
    if rs == [] then m else MarkOne(MarkAll(m, rs[..|rs| - 1], now), rs[|rs| - 1].id, now)
  }

  /** Marking a list of records stamps each of them, leaves every other
      record as it was, and removes exactly their ids from the pending set. */
  lemma {:induction false} MarkAllEffect(m: map<string, CollectionRecord>, rs: seq<CollectionRecord>, now: string)
    requires Keyed(m)
    ensures var m' := MarkAll(m, rs, now);
      && Keyed(m') && m'.Keys == m.Keys
      && (forall i :: 0 <= i < |rs| && rs[i].id in m ==>
            m'[rs[i].id] == m[rs[i].id].(synced := Synced, syncedAt := Some(now)))
      && (forall id :: id in m && id !in IdsOf(rs) ==> m'[id] == m[id])
      && UnsyncedIds(m') == UnsyncedIds(m) - IdsOf(rs)
  {
    if rs != [] {
      var init, last := rs[..|rs| - 1], rs[|rs| - 1];
      MarkAllEffect(m, init, now);
      var mi := MarkAll(m, init, now);
      MarkOneEffect(mi, last.id, now);
      IdsOfAppend(init, last);
      assert rs == init + [last];
      forall i | 0 <= i < |rs| && rs[i].id in m
        ensures MarkAll(m, rs, now)[rs[i].id] == m[rs[i].id].(synced := Synced, syncedAt := Some(now))
      {
        if i < |rs| - 1 {
          assert rs[i] == init[i];
        }
      }
    }
  }

  /** A list with distinct ids splits at `k` into two disjoint id sets. */
  lemma SplitIds(s: seq<CollectionRecord>, k: nat)
    requires k <= |s| && DistinctIds(s)
    ensures IdsOf(s) == IdsOf(s[..k]) + IdsOf(s[k..])
    ensures IdsOf(s[..k]) !! IdsOf(s[k..])
    ensures DistinctIds(s[k..])
  {
    var done, rest := s[..k], s[k..];
    forall i | 0 <= i < |s| ensures s[i].id in IdsOf(done) + IdsOf(rest) {
      if i < k { assert s[i] == done[i]; } else { assert s[i] == rest[i - k]; }
    }
    forall i, j | 0 <= i < |done| && 0 <= j < |rest| ensures done[i].id != rest[j].id {
      assert done[i] == s[i] && rest[j] == s[k + j];
    }
    forall i, j | 0 <= i < j < |rest| ensures rest[i].id != rest[j].id {
      assert rest[i] == s[k + i] && rest[j] == s[k + j];
    }
  }

  /** Partial failure: when record k of the snapshot is the first one
      refused, the records before it are synced, it and every later one
      stay pending exactly as they were, and n - k records remain pending. */
  lemma PartialFailure(m: map<string, CollectionRecord>, snapshot: seq<CollectionRecord>,
                       remote: CollectionRecord -> Response, now: string)
    requires Keyed(m) && Lists(snapshot, m, true)
    ensures var k := FirstFailure(snapshot, remote);
      var m' := MarkAll(m, snapshot[..k], now);
      && m'.Keys == m.Keys
      && (forall i :: 0 <= i < k ==>
            m'[snapshot[i].id] == snapshot[i].(synced := Synced, syncedAt := Some(now)))
      && (forall i :: k <= i < |snapshot| ==>
            m'[snapshot[i].id] == snapshot[i] && snapshot[i].synced == Pending)
      && (forall id :: id in m && id !in IdsOf(snapshot) ==> m'[id] == m[id])
      && UnsyncedIds(m') == IdsOf(snapshot[k..])
      && |UnsyncedIds(m')| == |snapshot| - k
  {
    var k := FirstFailure(snapshot, remote);
    PrefixMarked(m, snapshot, k, now);
    PendingLeft(m, snapshot, k, now);
  }

  /** After the first k records of a pending snapshot are marked, n - k records are pending. */
  lemma PendingLeft(m: map<string, CollectionRecord>, snapshot: seq<CollectionRecord>, k: nat, now: string)
    requires Keyed(m) && Lists(snapshot, m, true) && k <= |snapshot|
    ensures |UnsyncedIds(MarkAll(m, snapshot[..k], now))| == |snapshot| - k
  {
    PrefixMarked(m, snapshot, k, now);
    SplitIds(snapshot, k);
    DistinctCard(snapshot[k..]);
  }

  lemma PrefixMarked(m: map<string, CollectionRecord>, snapshot: seq<CollectionRecord>, k: nat, now: string)
    requires Keyed(m) && Lists(snapshot, m, true) && k <= |snapshot|
    ensures var m' := MarkAll(m, snapshot[..k], now);
      && m'.Keys == m.Keys
      && (forall i :: 0 <= i < k ==>
            m'[snapshot[i].id] == snapshot[i].(synced := Synced, syncedAt := Some(now)))
      && (forall i :: k <= i < |snapshot| ==>
            m'[snapshot[i].id] == snapshot[i] && snapshot[i].synced == Pending)
      && (forall id :: id in m && id !in IdsOf(snapshot) ==> m'[id] == m[id])
      && UnsyncedIds(m') == IdsOf(snapshot[k..])
  {
    var done, rest := snapshot[..k], snapshot[k..];
    MarkAllEffect(m, done, now);
    SplitIds(snapshot, k);
    var m' := MarkAll(m, done, now);
    forall i | k <= i < |snapshot|
      ensures m'[snapshot[i].id] == snapshot[i] && snapshot[i].synced == Pending
    {
      assert snapshot[i] == rest[i - k];
      assert snapshot[i].id in IdsOf(snapshot);
    }
    forall i | 0 <= i < k
      ensures m'[snapshot[i].id] == snapshot[i].(synced := Synced, syncedAt := Some(now))
    {
      assert snapshot[i] == done[i];
    }
  }

  /** Full-pass convergence: when the remote accepts every record of a
      snapshot of all pending records, nothing is pending afterwards. */
  lemma FullPassConverges(m: map<string, CollectionRecord>, snapshot: seq<CollectionRecord>,
                          remote: CollectionRecord -> Response, now: string)
    requires Keyed(m) && Lists(snapshot, m, true)
    requires forall i :: 0 <= i < |snapshot| ==> Accepted(remote(snapshot[i]))
    ensures FirstFailure(snapshot, remote) == |snapshot|
    ensures UnsyncedIds(MarkAll(m, snapshot, now)) == {}
  {
    PartialFailure(m, snapshot, remote, now);
    assert snapshot[..|snapshot|] == snapshot;
    assert snapshot[|snapshot|..] == [];
  }

  // ---------------------------------------------------------------- the service

  class SyncService {
    const db: IndexedDbService
    /** `${apiUrl}/collections`. */
    const endpoint: string
    var listeners: seq<Callback>
    /** The interval this service holds, and the intervals of this service
        the timer runtime has running. */
    var syncInterval: Option<TimerId>
    var activeIntervals: set<TimerId>
    var nextTimerId: TimerId
    /** `localStorage['lastSyncAt']`. */
    var lastSyncAt: Option<string>
    /** Every status delivered, in order. */
    var broadcasts: seq<Broadcast>
    /** Every POST made, in order. */
    var posts: seq<Post>

    /** At most one periodic interval is ever running, and it is the one held. */
    ghost predicate SingleInterval()
      reads this
    {
      && (syncInterval.None? ==> activeIntervals == {})
      && (syncInterval.Some? ==> activeIntervals == {syncInterval.value} && syncInterval.value < nextTimerId)
    }

    ghost predicate Valid()
      reads this, db
    {
      db.Valid() && SingleInterval()
    }

    /** The status `notifyListeners` computes. */
    function CurrentStatus(online: bool): (s: SyncStatus)
      reads this, db
      ensures !s.isSyncing && s.error.None?
    {
      SyncStatus(online, false, StoredLastSync(lastSyncAt), |UnsyncedIds(db.records)|, None)
    }

    constructor (db: IndexedDbService, apiUrl: Option<string>, storedLastSync: Option<string>)
      requires db.Valid()
      ensures Valid() && this.db == db
      ensures endpoint == (if TruthyText(apiUrl) then apiUrl.value else DefaultApiUrl) + "/collections"
      ensures listeners == [] && syncInterval.None? && activeIntervals == {}
      ensures lastSyncAt == storedLastSync && broadcasts == [] && posts == []
    {
      this.db := db;
      this.endpoint := (if TruthyText(apiUrl) then apiUrl.value else DefaultApiUrl) + "/collections";
      listeners := [];
      syncInterval := None;
      activeIntervals := {};
      nextTimerId := 1;
      lastSyncAt := storedLastSync;
      broadcasts := [];
      posts := [];
    }

    /** Reads the pending count and delivers the idle status to every
        listener. Before the store is open the read throws and nothing is
        delivered. */
    method NotifyListeners(online: bool)
      requires Valid()
      modifies this`broadcasts
      ensures Valid()
      ensures db.Queryable() ==> broadcasts == old(broadcasts) + [Broadcast(listeners, CurrentStatus(online))]
      ensures !db.Queryable() ==> broadcasts == old(broadcasts)
    {
      var unsynced := db.GetUnsyncedRecords();
      if unsynced.Err? {
        return;
      }
      var status := SyncStatus(online, false, StoredLastSync(lastSyncAt), |unsynced.value|, None);
      broadcasts := broadcasts + [Broadcast(listeners, status)];
    }

    /** Adds the listener and immediately tells every listener the current status. */
    method Subscribe(cb: Callback, online: bool)
      requires Valid()
      modifies this`listeners, this`broadcasts
      ensures Valid()
      ensures listeners == old(listeners) + [cb]
      ensures db.Queryable() ==> broadcasts == old(broadcasts) + [Broadcast(listeners, CurrentStatus(online))]
      ensures !db.Queryable() ==> broadcasts == old(broadcasts)
    {
      listeners := listeners + [cb];
      NotifyListeners(online);
    }

    /** The handle `subscribe` returns. */
    method Unsubscribe(cb: Callback)
      requires Valid()
      modifies this`listeners
      ensures Valid()
      ensures listeners == Without(old(listeners), cb)
    {
      listeners := Without(listeners, cb);
    }

    /** Clears the interval held, if any, and starts a fresh one. */
    method StartPeriodicSync()
      requires Valid()
      modifies this`syncInterval, this`activeIntervals, this`nextTimerId
      ensures Valid()
      ensures syncInterval == Some(old(nextTimerId)) && activeIntervals == {old(nextTimerId)}
      ensures nextTimerId == old(nextTimerId) + 1
    {
      if syncInterval.Some? {
        activeIntervals := activeIntervals - {syncInterval.value};
      }
      var handle := nextTimerId;
      nextTimerId := nextTimerId + 1;
      activeIntervals := activeIntervals + {handle};
      syncInterval := Some(handle);
    }

    /** The `init` of the service: the periodic sync starts only when online. */
    method Init(online: bool)
      requires Valid()
      modifies this`syncInterval, this`activeIntervals, this`nextTimerId
      ensures Valid()
      ensures online ==> syncInterval == Some(old(nextTimerId)) && activeIntervals == {old(nextTimerId)}
      ensures !online ==> unchanged(this)
    {
      if online {
        StartPeriodicSync();
      }
    }

    /** The loop of the pass: POSTs the records in snapshot order, each
        one answered before the next, marks each accepted record synced, and
        stops at the first refusal. Returns the index it stopped at. */
    method PostInOrder(snapshot: seq<CollectionRecord>, remote: CollectionRecord -> Response, now: string)
      returns (k: nat)
      requires Valid() && db.isOpen
      modifies this`posts, db`records
      ensures Valid()
      ensures k == FirstFailure(snapshot, remote)
      ensures db.records == MarkAll(old(db.records), snapshot[..k], now)
      ensures posts == old(posts) + PostsTo(endpoint, Attempted(snapshot, k))
    {
      k := 0;
      while k < |snapshot|
        invariant 0 <= k <= |snapshot|
        invariant db.Valid()
        invariant forall j :: 0 <= j < k ==> Accepted(remote(snapshot[j]))
        invariant db.records == MarkAll(old(db.records), snapshot[..k], now)
        invariant posts == old(posts) + PostsTo(endpoint, snapshot[..k])
      {
        var record := snapshot[k];
        posts := posts + [Post(endpoint, record)];
        assert PostsTo(endpoint, snapshot[..k + 1]) == PostsTo(endpoint, snapshot[..k]) + [Post(endpoint, record)];
        var response := remote(record);
        if !Accepted(response) {
          assert snapshot[..k + 1] == snapshot[..k] + [record];
          break;
        }
        var _ := db.MarkAsSynced(record.id, now);
        assert snapshot[..k + 1][..k] == snapshot[..k];
        k := k + 1;
      }
      assert k == |snapshot| ==> snapshot[..k] == snapshot;
    }

    /** One sync pass. `online` is the connectivity seen at the start,
        `onlineAtEnd` the connectivity seen when the pass reports; `remote`
        answers each POST; `now` stamps the marks and `lastSyncAt`. The
        returned snapshot is the pending set the pass read. */
    method SyncPendingRecords(online: bool, onlineAtEnd: bool, remote: CollectionRecord -> Response, now: string)
      returns (snapshot: seq<CollectionRecord>)
      requires Valid()
      modifies this`posts, this`lastSyncAt, this`broadcasts, db`records
      ensures Valid()
      ensures !online || !old(db.Queryable()) ==>
                snapshot == [] && posts == old(posts) && lastSyncAt == old(lastSyncAt)
                && broadcasts == old(broadcasts) && db.records == old(db.records)
      ensures online && old(db.Queryable()) ==>
                var k := FirstFailure(snapshot, remote);
                && Lists(snapshot, old(db.records), true)
                && db.records == MarkAll(old(db.records), snapshot[..k], now)
                && posts == old(posts) + PostsTo(endpoint, Attempted(snapshot, k))
                && lastSyncAt == (if k == |snapshot| then Some(now) else old(lastSyncAt))
                && broadcasts == old(broadcasts) + [
                     Broadcast(listeners, SyncingStatus(|snapshot|)),
                     Broadcast(listeners,
                       if k == |snapshot| then CurrentStatus(onlineAtEnd)
                       else SyncStatus(onlineAtEnd, false, None, |snapshot| - k,
                                       Some(FailureMessage(remote(snapshot[k])))))]
                && |UnsyncedIds(db.records)| == |snapshot| - k
    {
      snapshot := [];
      if !online {
        return;
      }
      var read := db.GetUnsyncedRecords();
      if read.Err? {
        // The catch block reads again, fails the same way, and rejects.
        return;
      }
      snapshot := read.value;
      var k := RunPass(snapshot, onlineAtEnd, remote, now);
    }

    /** The body of the pass's `try` over the snapshot it read: the start
        status, the loop, and the completion or the error report. */
    method RunPass(snapshot: seq<CollectionRecord>, onlineAtEnd: bool, remote: CollectionRecord -> Response, now: string)
      returns (k: nat)
      requires Valid() && db.Queryable() && Lists(snapshot, db.records, true)
      modifies this`posts, this`lastSyncAt, this`broadcasts, db`records
      ensures Valid()
      ensures k == FirstFailure(snapshot, remote)
      ensures db.records == MarkAll(old(db.records), snapshot[..k], now)
      ensures posts == old(posts) + PostsTo(endpoint, Attempted(snapshot, k))
      ensures lastSyncAt == (if k == |snapshot| then Some(now) else old(lastSyncAt))
      ensures broadcasts == old(broadcasts) + [
                Broadcast(listeners, SyncingStatus(|snapshot|)),
                Broadcast(listeners,
                  if k == |snapshot| then CurrentStatus(onlineAtEnd)
                  else SyncStatus(onlineAtEnd, false, None, |snapshot| - k,
                                  Some(FailureMessage(remote(snapshot[k])))))]
      ensures |UnsyncedIds(db.records)| == |snapshot| - k
    {
      var first := Broadcast(listeners, SyncingStatus(|snapshot|));
      broadcasts := broadcasts + [first];
      ghost var records0 := db.records;
      k := PostInOrder(snapshot, remote, now);
      PendingLeft(records0, snapshot, k, now);
      ghost var broadcasts1 := broadcasts;
      FinishPass(snapshot, k, onlineAtEnd, remote, now);
      assert broadcasts == broadcasts1 + [broadcasts[|broadcasts| - 1]];
    }

    /** The end of a pass that stopped at index `k`: after a full pass,
        `lastSyncAt` is stamped and the idle status delivered; otherwise the
        catch block re-reads the pending count and delivers the error. */
    method FinishPass(snapshot: seq<CollectionRecord>, k: nat, onlineAtEnd: bool,
                      remote: CollectionRecord -> Response, now: string)
      requires Valid() && db.Queryable() && k <= |snapshot|
      modifies this`lastSyncAt, this`broadcasts
      ensures Valid()
      ensures lastSyncAt == (if k == |snapshot| then Some(now) else old(lastSyncAt))
      ensures broadcasts == old(broadcasts) + [
                Broadcast(listeners,
                  if k == |snapshot| then CurrentStatus(onlineAtEnd)
                  else SyncStatus(onlineAtEnd, false, None, |UnsyncedIds(db.records)|,
                                  Some(FailureMessage(remote(snapshot[k])))))]
    {
      if k == |snapshot| {
        lastSyncAt := Some(now);
        NotifyListeners(onlineAtEnd);
      } else {
        var reread := db.GetUnsyncedRecords();
        var report := SyncStatus(onlineAtEnd, false, None, |reread.value|, Some(FailureMessage(remote(snapshot[k]))));
        broadcasts := broadcasts + [Broadcast(listeners, report)];
      }
    }

    /** The interval callback: a pass only when online. */
    method OnIntervalTick(online: bool, onlineAtEnd: bool, remote: CollectionRecord -> Response, now: string)
      returns (snapshot: seq<CollectionRecord>)
      requires Valid()
      modifies this`posts, this`lastSyncAt, this`broadcasts, db`records
      ensures Valid()
      ensures !online ==> snapshot == [] && unchanged(this) && unchanged(db)
      ensures online ==> Lists(snapshot, old(db.records), true) || !old(db.Queryable())
    {
      snapshot := [];
      if online {
        snapshot := SyncPendingRecords(online, onlineAtEnd, remote, now);
      }
    }

    /** The `online` event, once its delay has elapsed: a pass, then a fresh interval. */
    method OnOnline(online: bool, onlineAtEnd: bool, remote: CollectionRecord -> Response, now: string)
      returns (snapshot: seq<CollectionRecord>)
      requires Valid()
      modifies this`posts, this`lastSyncAt, this`broadcasts, db`records
      modifies this`syncInterval, this`activeIntervals, this`nextTimerId
      ensures Valid()
      ensures syncInterval == Some(old(nextTimerId)) && activeIntervals == {old(nextTimerId)}
      ensures online && old(db.Queryable()) ==> Lists(snapshot, old(db.records), true)
    {
      snapshot := SyncPendingRecords(online, onlineAtEnd, remote, now);
      StartPeriodicSync();
    }

    /** The `offline` event: listeners hear `isOnline = false` at once. */
    method OnOffline()
      requires Valid()
      modifies this`broadcasts
      ensures Valid()
      ensures db.Queryable() ==> broadcasts == old(broadcasts) + [Broadcast(listeners, CurrentStatus(false))]
      ensures db.Queryable() ==> !broadcasts[|broadcasts| - 1].status.isOnline
      ensures !db.Queryable() ==> broadcasts == old(broadcasts)
    {
      NotifyListeners(false);
    }
  }
}
