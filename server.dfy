/** The remote ingest endpoint and its ledger step (backend/server.js):
    `POST /api/collections` validates, inserts one row into the canonical
    table, and defers one ledger job; the job sends a compact projection
    to the ledger contract and writes the transaction hash back onto the
    row. The database, the ledger client and the date parser are inputs. */
module Server {
  import opened CollectionTypes

  /** `location` as it arrives in JSON: any coordinate may be missing. */
  datatype BodyLocation = BodyLocation(latitude: Option<real>, longitude: Option<real>, accuracy: Option<real>)

  /** The fields the handler destructures from `req.body`; `None` is an absent or null field. */
  datatype IngestBody = IngestBody(
    id: Option<string>,
    collectorId: Option<string>,
    herbType: Option<string>,
    quantity: Option<real>,
    photos: Option<seq<string>>,
    location: Option<BodyLocation>,
    timestamp: Option<string>)

  /** A row of the canonical `collections` table. */
  datatype Row = Row(
    id: string,
    collectorId: string,
    herbType: string,
    quantity: real,
    photos: seq<string>,
    latitude: Option<real>,
    longitude: Option<real>,
    locationAccuracy: Option<real>,
    timestampMs: int,
    syncedAt: string,
    blockchainHash: Option<string>)

  /** What `queueBlockchainLog` receives. */
  datatype LedgerJob = LedgerJob(
    recordId: string,
    herbType: string,
    quantity: real,
    latitude: string,
    longitude: string,
    timestamp: int)

  /** The arguments of one `logCollection` transaction. */
  datatype LedgerCall = LedgerCall(
    recordId: string,
    herbType: string,
    quantity: int,
    latitude: string,
    longitude: string,
    timestamp: int)

  /** The status and JSON body of the handler's reply. */
  datatype Reply = Reply(status: nat, success: bool, error: Option<string>)

  const Created := Reply(200, true, None)
  const MissingFields := Reply(400, false, Some("Missing required fields"))
  const DatabaseError := Reply(500, false, Some("Database error"))
  const InternalError := Reply(500, false, Some("Internal server error"))

  /** The process environment the ledger step reads. */
  datatype LedgerConfig = LedgerConfig(contractAddress: Option<string>, privateKey: Option<string>)

  /** What the ledger client does with one job. */
  datatype SendOutcome =
    | BadKey               // privateKeyToAccount throws
    | SendFailed           // the transaction is rejected or never mined
    | Mined(txHash: string)

  /** What `logToBlockchain` logs; nothing is ever thrown to a caller. */
  datatype AnchorLog = Skipped | Failed | Anchored(txHash: string)

  /** Inputs the handler takes from its runtime: `new Date(s).getTime()`
      (None for an invalid date), `Number.prototype.toString`, and the clock. */
  datatype Env = Env(parseDate: string -> Option<int>, numberText: real -> string, now: string)

  // ---------------------------------------------------------------- validation

  /** JavaScript truthiness of an optional number: present and not 0. */
  predicate TruthyNumber(q: Option<real>) {
    q.Some? && q.value != 0.0
  }

  /** The guard of the handler: every required field truthy. */
  predicate HasRequiredFields(b: IngestBody) {
    && TruthyText(b.id)
    && TruthyText(b.collectorId)
    && TruthyText(b.herbType)
    && TruthyNumber(b.quantity)
    && b.location.Some?
    && TruthyText(b.timestamp)
  }

  /** A zero quantity or any empty required string is refused, however good the rest is. */
  lemma FalsyFieldsRejected(b: IngestBody)
    ensures b.quantity == Some(0.0) ==> !HasRequiredFields(b)
    ensures (b.id == Some("") || b.collectorId == Some("") || b.herbType == Some("")
              || b.timestamp == Some("")) ==> !HasRequiredFields(b)
    ensures (b.id.None? || b.collectorId.None? || b.herbType.None? || b.quantity.None?
              || b.location.None? || b.timestamp.None?) ==> !HasRequiredFields(b)
  {
  }

  /** The JSON the client posts for a record. */
  function BodyOf(r: CollectionRecord): IngestBody {
    IngestBody(Some(r.id), Some(r.collectorId), Some(r.herbType), Some(r.quantity), Some(r.photos),
               Some(BodyLocation(Some(r.location.latitude), Some(r.location.longitude), r.location.accuracy)),
               Some(r.timestamp))
  }

  /** A client record passes the guard exactly when its strings are non-empty and its quantity is not 0. */
  lemma ClientRecordValidity(r: CollectionRecord)
    ensures HasRequiredFields(BodyOf(r)) <==>
              r.id != "" && r.collectorId != "" && r.herbType != "" && r.quantity != 0.0 && r.timestamp != ""
  {
  }

  // ---------------------------------------------------------------- projections

  /** `Math.floor(ms / 1000)`: the Unix time in whole seconds. */
  function EpochSeconds(ms: int): (s: int)
    ensures s * 1000 <= ms < s * 1000 + 1000
  {
    ms / 1000
  }

  /** `Math.floor(quantity * 1000)`: kilograms to whole grams, rounded down. */
  function QuantityUnits(q: real): (u: int)
    ensures u as real <= q * 1000.0 < u as real + 1.0
  {
    (q * 1000.0).Floor
  }

  /** The conversions round down, never to nearest. */
  lemma ProjectionExamples()
    ensures QuantityUnits(1.2345) == 1234
    ensures QuantityUnits(0.5) == 500
    ensures QuantityUnits(0.0019) == 1
    ensures EpochSeconds(1999) == 1
    ensures EpochSeconds(-1) == -1
  {
  }

  /** The row the handler inserts. */
  function RowOf(b: IngestBody, ms: int, now: string): Row
    requires HasRequiredFields(b)
  {
    var loc := b.location.value;
    Row(b.id.value, b.collectorId.value, b.herbType.value, b.quantity.value,
        if b.photos.Some? then b.photos.value else [],
        loc.latitude, loc.longitude, loc.accuracy, ms, now, None)
  }

  /** The job the handler defers, once both coordinates are present. */
  function JobOf(b: IngestBody, ms: int, numberText: real -> string): (j: LedgerJob)
    requires HasRequiredFields(b)
    requires b.location.value.latitude.Some? && b.location.value.longitude.Some?
    ensures j.recordId == b.id.value && j.herbType == b.herbType.value && j.quantity == b.quantity.value
    ensures j.timestamp * 1000 <= ms < j.timestamp * 1000 + 1000
  {
    var loc := b.location.value;
    LedgerJob(b.id.value, b.herbType.value, b.quantity.value,
              numberText(loc.latitude.value), numberText(loc.longitude.value), EpochSeconds(ms))
  }

  /** The `logCollection` arguments of a job: its fields with the quantity in grams. */
  function CallOf(j: LedgerJob): (c: LedgerCall)
    ensures c.quantity as real <= j.quantity * 1000.0 < c.quantity as real + 1.0
    ensures c.(quantity := 0) == LedgerCall(j.recordId, j.herbType, 0, j.latitude, j.longitude, j.timestamp)
  {
    LedgerCall(j.recordId, j.herbType, QuantityUnits(j.quantity), j.latitude, j.longitude, j.timestamp)
  }

  /** `.update({ blockchain_hash }).eq('id', recordId)`: only rows with that
      id change, and only in their hash. */
  function Annotate(rows: seq<Row>, id: string, hash: string): (r: seq<Row>)
    ensures |r| == |rows|
    ensures forall i :: 0 <= i < |rows| && rows[i].id != id ==> r[i] == rows[i]
    ensures forall i :: 0 <= i < |rows| && rows[i].id == id ==>
              r[i].blockchainHash == Some(hash) && r[i].(blockchainHash := rows[i].blockchainHash) == rows[i]
  {
    if rows == [] then []
    else [if rows[0].id == id then rows[0].(blockchainHash := Some(hash)) else rows[0]] + Annotate(rows[1..], id, hash)
  }

  /** The call fits the contract's ABI: `_quantity` and `_timestamp` are
      `uint256`, so a negative value cannot be encoded and nothing is sent. */
  predicate Encodable(c: LedgerCall) {
    c.quantity >= 0 && c.timestamp >= 0
  }

  /** Both `CONTRACT_ADDRESS` and `PRIVATE_KEY` set and non-empty. */
  predicate Configured(c: LedgerConfig) {
    TruthyText(c.contractAddress) && TruthyText(c.privateKey)
  }

  // ---------------------------------------------------------------- the server

  class IngestServer {
    const config: LedgerConfig
    /** The canonical table. */
    var rows: seq<Row>
    /** Deferred ledger jobs not yet fired. */
    var queue: seq<LedgerJob>
    /** Every `logCollection` transaction submitted, mined or not. */
    var ledgerCalls: seq<LedgerCall>

    constructor (config: LedgerConfig, rows: seq<Row>)
      ensures this.config == config && this.rows == rows && queue == [] && ledgerCalls == []
    {
      this.config := config;
      this.rows := rows;
      queue := [];
      ledgerCalls := [];
    }

    /** The `POST /api/collections` handler; `insertOk` is the outcome of the
        plain insert (the table's behaviour on a repeated id is not known). */
    method PostCollection(body: IngestBody, env: Env, insertOk: bool) returns (reply: Reply)
      modifies this`rows, this`queue
      ensures !HasRequiredFields(body) ==> reply == MissingFields && unchanged(this)
      ensures HasRequiredFields(body) && env.parseDate(body.timestamp.value).None? ==>
                reply == InternalError && unchanged(this)
      ensures HasRequiredFields(body) && env.parseDate(body.timestamp.value).Some? && !insertOk ==>
                reply == DatabaseError && unchanged(this)
      ensures HasRequiredFields(body) && env.parseDate(body.timestamp.value).Some? && insertOk ==>
                var ms := env.parseDate(body.timestamp.value).value;
                var loc := body.location.value;
                && rows == old(rows) + [RowOf(body, ms, env.now)]
                && (loc.latitude.Some? && loc.longitude.Some? ==>
                      reply == Created && queue == old(queue) + [JobOf(body, ms, env.numberText)])
                && (loc.latitude.None? || loc.longitude.None? ==>
                      reply == InternalError && queue == old(queue))
    {
      if !HasRequiredFields(body) {
        return MissingFields;
      }
      // `new Date(timestamp).toISOString()` throws on an invalid date.
      var parsed := env.parseDate(body.timestamp.value);
      if parsed.None? {
        return InternalError;
      }
      var ms := parsed.value;
      if !insertOk {
        return DatabaseError;
      }
      rows := rows + [RowOf(body, ms, env.now)];
      // `location.latitude.toString()` throws on a missing coordinate, after the insert.
      var loc := body.location.value;
      if loc.latitude.None? || loc.longitude.None? {
        return InternalError;
      }
      queue := queue + [JobOf(body, ms, env.numberText)];
      reply := Created;
    }

    /** `logToBlockchain`: a no-op when unconfigured; otherwise one
        transaction and, once it is mined, the hash written back to the
        record's rows (`updateOk` is whether that write takes). A bad key or
        arguments the ABI cannot encode stop it before anything is sent.
        Every failure is only logged. */
    method LogToBlockchain(job: LedgerJob, send: SendOutcome, updateOk: bool) returns (log: AnchorLog)
      modifies this`rows, this`ledgerCalls
      ensures !Configured(config) ==> log == Skipped && unchanged(this)
      ensures Configured(config) && (send.BadKey? || !Encodable(CallOf(job))) ==>
                log == Failed && unchanged(this)
      ensures Configured(config) && !send.BadKey? && Encodable(CallOf(job)) ==>
                ledgerCalls == old(ledgerCalls) + [CallOf(job)]
      ensures Configured(config) && send.SendFailed? ==> log == Failed && rows == old(rows)
      ensures Configured(config) && send.Mined? && Encodable(CallOf(job)) ==>
                && log == Anchored(send.txHash)
                && rows == (if updateOk then Annotate(old(rows), job.recordId, send.txHash) else old(rows))
    {
      if !Configured(config) {
        return Skipped;
      }
      if send.BadKey? {
        return Failed;
      }
      var call := CallOf(job);
      if !Encodable(call) {
        return Failed;
      }
      ledgerCalls := ledgerCalls + [call];
      if send.SendFailed? {
        return Failed;
      }
      if updateOk {
        rows := Annotate(rows, job.recordId, send.txHash);
      }
      log := Anchored(send.txHash);
    }

    /** The timer of job `i` fires: the job leaves the queue and runs once,
        with the effects of `LogToBlockchain` on that job. */
    method FireJob(i: nat, send: SendOutcome, updateOk: bool) returns (log: AnchorLog)
      requires i < |queue|
      modifies this`rows, this`ledgerCalls, this`queue
      ensures queue == old(queue[..i] + queue[i + 1..])
      ensures var job := old(queue[i]);
        && (!Configured(config) ==> log == Skipped && rows == old(rows) && ledgerCalls == old(ledgerCalls))
        && (Configured(config) && (send.BadKey? || !Encodable(CallOf(job))) ==>
              log == Failed && rows == old(rows) && ledgerCalls == old(ledgerCalls))
        && (Configured(config) && !send.BadKey? && Encodable(CallOf(job)) ==>
              ledgerCalls == old(ledgerCalls) + [CallOf(job)])
        && (Configured(config) && send.SendFailed? ==> log == Failed && rows == old(rows))
        && (Configured(config) && send.Mined? && Encodable(CallOf(job)) ==>
              && log == Anchored(send.txHash)
              && rows == (if updateOk then Annotate(old(rows), job.recordId, send.txHash) else old(rows)))
    {
      var job := queue[i];
      queue := queue[..i] + queue[i + 1..];
      log := LogToBlockchain(job, send, updateOk);
    }
  }
}
