/** One record's whole journey, using only the contracts of the pieces: it
    is saved pending on the device, a pass posts it and marks it synced,
    the server stores it and defers one ledger job, and the job writes the
    transaction hash back onto the canonical row. */
module Scenario {
  import opened CollectionTypes
  import opened Database
  import opened Sync
  import opened Server

  /** A fresh device: an empty database, opened, then `r` saved. */
  method DeviceWith(r: CollectionRecord) returns (db: IndexedDbService)
    ensures fresh(db) && db.Valid() && db.Queryable() && db.records == map[r.id := r]
  {
    db := new IndexedDbService(0, false, {}, map[]);
    var open := db.Init(true);
    assert open == Pass && db.records == map[] && db.Queryable();
    var saved := db.SaveRecord(r);
  }

  method DeviceJourney(t0: string, now: string)
    requires now != ""
  {
    var r1 := CollectionRecord("r1", "c7", "Mint", 0.5, [], Location(10.0, 20.0, None), t0, Pending, None);
    var db := DeviceWith(r1);
    assert UnsyncedIds(db.records) == {"r1"};

    // Connectivity is back and the remote accepts the POST.
    var sync := new SyncService(db, None, None);
    sync.Subscribe(1, true);
    var remote := (r: CollectionRecord) => HttpResponse(200, "OK");
    ghost var before := db.records;
    var snapshot := sync.SyncPendingRecords(true, true, remote, now);
    OnePendingRecord(before, r1, snapshot, sync.endpoint, now);
    assert FirstFailure(snapshot, remote) == 1;
    assert sync.posts == [Post(sync.endpoint, r1)];
    assert db.records["r1"].synced == Synced && db.records["r1"].syncedAt == Some(now);
    assert sync.lastSyncAt == Some(now);
    assert |UnsyncedIds(db.records)| == 0;
  }

  /** A store holding one pending record lists exactly that record, and
      marking it leaves nothing pending. */
  lemma OnePendingRecord(m: map<string, CollectionRecord>, r: CollectionRecord, snapshot: seq<CollectionRecord>,
                         url: string, now: string)
    requires m == map[r.id := r] && r.synced == Pending && Lists(snapshot, m, true)
    ensures snapshot == [r] && snapshot[..1] == [r]
    ensures PostsTo(url, Attempted(snapshot, 1)) == [Post(url, r)]
    ensures MarkAll(m, [r], now) == map[r.id := r.(synced := Synced, syncedAt := Some(now))]
    ensures UnsyncedIds(MarkAll(m, [r], now)) == {}
  {
    assert UnsyncedIds(m) == {r.id};
    DistinctCard(snapshot);
    assert snapshot[0].id in m;
    assert [r][..0] == [];
    MarkAllEffect(m, [r], now);
    assert IdsOf([r]) == {r.id} by {
      assert [r][0].id == r.id;
    }
  }

  method ServerJourney(t0: string, t0Ms: nat, now: string)
    requires t0 != ""
  {
    var r1 := CollectionRecord("r1", "c7", "Mint", 0.5, [], Location(10.0, 20.0, None), t0, Pending, None);
    // The server ingests the same record and later anchors it.
    var env := Env(s => if s == t0 then Some(t0Ms) else None, x => "x", now);
    var server := new IngestServer(LedgerConfig(Some("0xC0"), Some("0xK1")), []);
    ClientRecordValidity(r1);
    var reply := server.PostCollection(BodyOf(r1), env, true);
    assert reply == Created;
    assert |server.rows| == 1 && server.rows[0].id == "r1" && server.rows[0].blockchainHash == None;
    assert |server.queue| == 1 && server.queue[0].recordId == "r1";
    var log := server.FireJob(0, Mined("h1"), true);
    assert log == Anchored("h1");
    assert server.queue == [];
    assert server.rows[0].blockchainHash == Some("h1");
    assert server.ledgerCalls[0].quantity == 500;
  }

  /** A remote that refuses the record "r2" and accepts every other. */
  function RefuseR2(r: CollectionRecord): Response {
    if r.id == "r2" then HttpResponse(503, "Busy") else HttpResponse(201, "Created")
  }

  lemma RefusedRecordStaysPending(m: map<string, CollectionRecord>, snapshot: seq<CollectionRecord>, now: string)
    requires Keyed(m) && m.Keys == {"r1", "r2"} && Lists(snapshot, m, true)
    requires m["r1"].synced == Pending && m["r2"].synced == Pending
    ensures FirstFailure(snapshot, RefuseR2) < |snapshot|
    ensures var m' := MarkAll(m, snapshot[..FirstFailure(snapshot, RefuseR2)], now);
      "r2" in m' && m'["r2"] == m["r2"]
  {
    DistinctCard(snapshot);
    assert UnsyncedIds(m) == {"r1", "r2"};
    assert |snapshot| == 2;
    assert snapshot[0].id in m && snapshot[1].id in m;
    var k := FirstFailure(snapshot, RefuseR2);
    assert k < 2 && snapshot[k].id == "r2" by {
      if snapshot[0].id == "r1" { assert snapshot[1].id == "r2"; }
    }
    PartialFailure(m, snapshot, RefuseR2, now);
  }

  /** A pass in which the remote refuses one of two pending records: that
      record stays pending whatever the snapshot order, the pass reports the
      error, and `lastSyncAt` is not written. */
  method RefusedPass(now: string)
  {
    var r1 := CollectionRecord("r1", "c7", "Mint", 0.5, [], Location(10.0, 20.0, None), "t1", Pending, None);
    var r2 := CollectionRecord("r2", "c7", "Tulsi", 1.25, [], Location(10.0, 20.0, None), "t2", Pending, None);
    var db := new IndexedDbService(1, true, {SyncedIndex, TimestampIndex}, map["r1" := r1, "r2" := r2]);
    var open := db.Init(true);
    var sync := new SyncService(db, None, None);
    ghost var before := db.records;
    assert UnsyncedIds(before) == {"r1", "r2"};
    var snapshot := sync.SyncPendingRecords(true, false, RefuseR2, now);
    RefusedRecordStaysPending(before, snapshot, now);
    assert db.records["r2"] == r2;
    assert sync.lastSyncAt == None;
    assert !sync.broadcasts[1].status.isOnline;
  }

  /** A version-1 store that lacks the `synced` index opens without an
      upgrade, so the pending query keeps failing and no pass can start. */
  method MissingIndexPersists(r: CollectionRecord, online: bool, now: string)
  {
    var db := new IndexedDbService(1, true, {TimestampIndex}, map[r.id := r]);
    var open := db.Init(true);
    assert open == Pass && db.indexNames == {TimestampIndex};
    var read := db.GetUnsyncedRecords();
    assert read == Err(IndexMissing);
    var sync := new SyncService(db, None, None);
    var snapshot := sync.SyncPendingRecords(online, online, (x: CollectionRecord) => HttpResponse(200, "OK"), now);
    assert snapshot == [] && sync.posts == [] && sync.broadcasts == [] && db.records == map[r.id := r];
  }
}
