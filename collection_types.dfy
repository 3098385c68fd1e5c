/** The record and status shapes shared by the local store, the sync
    service and the status indicator (src/types/collection.ts), plus the
    decimal rendering JavaScript applies to a non-negative integer in a
    template string. */
module CollectionTypes {

  datatype Option<+T> = None | Some(value: T)

  /** A position fix; `accuracy` is optional. */
  datatype Location = Location(latitude: real, longitude: real, accuracy: Option<real>)

  /** `synced` is a number that the client only ever sets to 0 (pending) or 1 (synced). */
  type SyncFlag = x: int | 0 <= x <= 1

  const Pending: SyncFlag := 0
  const Synced: SyncFlag := 1

  /** One observation captured in the field. `quantity` is a JavaScript
      number, modelled as a real (no NaN, no IEEE rounding); `timestamp`
      and `syncedAt` are ISO date strings, kept opaque. */
  datatype CollectionRecord = CollectionRecord(
    id: string,
    collectorId: string,
    herbType: string,
    quantity: real,
    photos: seq<string>,
    location: Location,
    timestamp: string,
    synced: SyncFlag,
    syncedAt: Option<string>)

  /** The snapshot broadcast to subscribers. */
  datatype SyncStatus = SyncStatus(
    isOnline: bool,
    isSyncing: bool,
    lastSyncAt: Option<string>,
    pendingCount: nat,
    error: Option<string>)

  /** JavaScript truthiness of an optional string: present and non-empty. */
  predicate TruthyText(s: Option<string>) {
    s.Some? && s.value != ""
  }

  function DigitChar(d: nat): (c: char)
    requires d < 10
    ensures '0' <= c <= '9'
  {
    "0123456789"[d]
  }

  function DigitValue(c: char): nat
    requires '0' <= c <= '9'
  {
    (c as int - '0' as int) as nat
  }

  predicate IsDigits(s: string) {
    forall i :: 0 <= i < |s| ==> '0' <= s[i] <= '9'
  }

  /** How `${n}` renders a non-negative integer: shortest decimal digits,
      no sign, no leading zero. */
  function DecimalText(n: nat): (s: string)
    ensures |s| >= 1 && IsDigits(s)
    ensures |s| > 1 ==> s[0] != '0'
    decreases n
  {
    if n < 10 then [DigitChar(n)] else DecimalText(n / 10) + [DigitChar(n % 10)]
  }

  /** Reads a string of digits back as a number (the reference to check
      DecimalText against). */
  function DecimalValue(s: string): nat
    requires IsDigits(s)
  {
    if s == [] then 0 else 10 * DecimalValue(s[..|s| - 1]) + DigitValue(s[|s| - 1])
  }

  lemma {:induction false} DecimalRoundTrip(n: nat)
    ensures DecimalValue(DecimalText(n)) == n
    decreases n
  {
    var s := DecimalText(n);
    if n < 10 {
      assert s == [DigitChar(n)];
      assert s[..0] == [];
    } else {
      DecimalRoundTrip(n / 10);
      assert s[..|s| - 1] == DecimalText(n / 10);
      assert s[|s| - 1] == DigitChar(n % 10);
    }
  }

  /** Distinct numbers render as distinct texts. */
  lemma DecimalTextInjective(m: nat, n: nat)
    requires DecimalText(m) == DecimalText(n)
    ensures m == n
  {
    DecimalRoundTrip(m);
    DecimalRoundTrip(n);
  }
}
