/** The three prioritised choices the status indicator makes from a
    `SyncStatus` (src/components/StatusIndicator.tsx): the icon, the text
    and the background colour. The icon and the text test offline, then
    syncing, then error, then the pending count; the colour tests offline
    or error first, so an error turns the background red even mid-sync. */
module StatusIndicator {
  import opened CollectionTypes

  datatype Icon = WifiOff | Loader2 | AlertCircle | Check | Wifi

  const RedBackground := "bg-red-50 border-red-200"
  const BlueBackground := "bg-blue-50 border-blue-200"
  const GreenBackground := "bg-green-50 border-green-200"
  const YellowBackground := "bg-yellow-50 border-yellow-200"

  const SyncingText := "Syncing..."
  const ErrorText := "Sync error"
  const AllSyncedText := "All synced"

  /** `status.error` read as a condition. */
  predicate HasError(s: SyncStatus) {
    TruthyText(s.error)
  }

  function OfflineText(n: nat): string {
    "Offline \U{2022} " + DecimalText(n) + " pending"
  }

  function PendingText(n: nat): string {
    DecimalText(n) + " pending sync"
  }

  function StatusIcon(s: SyncStatus): Icon {
    if !s.isOnline then WifiOff
    else if s.isSyncing then Loader2
    else if HasError(s) then AlertCircle
    else if s.pendingCount == 0 then Check
    else Wifi
  }

  function StatusText(s: SyncStatus): string {
    if !s.isOnline then OfflineText(s.pendingCount)
    else if s.isSyncing then SyncingText
    else if HasError(s) then ErrorText
    else if s.pendingCount == 0 then AllSyncedText
    else PendingText(s.pendingCount)
  }

  function StatusColor(s: SyncStatus): string {
    if !s.isOnline || HasError(s) then RedBackground
    else if s.isSyncing then BlueBackground
    else if s.pendingCount == 0 then GreenBackground
    else YellowBackground
  }

  /** Offline dominates: whatever else the status says. */
  lemma OfflineDominates(s: SyncStatus)
    requires !s.isOnline
    ensures StatusIcon(s) == WifiOff && StatusText(s) == OfflineText(s.pendingCount)
    ensures StatusColor(s) == RedBackground
  {
  }

  /** Online and syncing reads "Syncing...", even with an error or pending records. */
  lemma SyncingBeatsError(s: SyncStatus)
    requires s.isOnline && s.isSyncing
    ensures StatusIcon(s) == Loader2 && StatusText(s) == SyncingText
  {
  }

  lemma ErrorWhenIdle(s: SyncStatus)
    requires s.isOnline && !s.isSyncing && HasError(s)
    ensures StatusIcon(s) == AlertCircle && StatusText(s) == ErrorText
  {
  }

  /** With no error, an idle online status reads "All synced" exactly when
      nothing is pending, and otherwise names the count. */
  lemma IdleText(s: SyncStatus)
    requires s.isOnline && !s.isSyncing && !HasError(s)
    ensures StatusText(s) == AllSyncedText <==> s.pendingCount == 0
    ensures s.pendingCount > 0 ==> StatusText(s) == PendingText(s.pendingCount)
  {
    if s.pendingCount > 0 {
      assert PendingText(s.pendingCount)[0] == DecimalText(s.pendingCount)[0];
      assert AllSyncedText[0] == 'A';
    }
  }

  /** The colour is red exactly when offline or an error is set, so its
      priority differs from that of the text. */
  lemma RedExactly(s: SyncStatus)
    ensures StatusColor(s) == RedBackground <==> !s.isOnline || HasError(s)
  {
  }

  /** A status that shows the spinner and "Syncing..." on a red background. */
  lemma ColourAndTextDisagree()
    ensures var s := SyncStatus(true, true, None, 3, Some("HTTP 500: Internal Server Error"));
      StatusText(s) == SyncingText && StatusIcon(s) == Loader2 && StatusColor(s) == RedBackground
  {
    var s := SyncStatus(true, true, None, 3, Some("HTTP 500: Internal Server Error"));
    assert HasError(s);
  }

  /** The numbers in the two count texts are the status's own count. */
  lemma CountTextsDetermineCount(m: nat, n: nat)
    ensures OfflineText(m) == OfflineText(n) ==> m == n
    ensures PendingText(m) == PendingText(n) ==> m == n
  {
    var pre := "Offline \U{2022} ";
    if OfflineText(m) == OfflineText(n) {
      var a, b := DecimalText(m), DecimalText(n);
      assert |a| == |b|;
      assert a == OfflineText(m)[|pre|..|pre| + |a|];
      assert b == OfflineText(n)[|pre|..|pre| + |b|];
      DecimalTextInjective(m, n);
    }
    if PendingText(m) == PendingText(n) {
      var a, b := DecimalText(m), DecimalText(n);
      assert |a| == |b|;
      assert a == PendingText(m)[..|a|];
      assert b == PendingText(n)[..|b|];
      DecimalTextInjective(m, n);
    }
  }

  /** The icon and the text always pick the same branch: each icon goes
      with exactly one text. */
  lemma IconMatchesText(s: SyncStatus)
    ensures StatusIcon(s) == WifiOff <==> StatusText(s) == OfflineText(s.pendingCount)
    ensures StatusIcon(s) == Loader2 <==> StatusText(s) == SyncingText
    ensures StatusIcon(s) == AlertCircle <==> StatusText(s) == ErrorText
    ensures StatusIcon(s) == Check <==> StatusText(s) == AllSyncedText
    ensures StatusIcon(s) == Wifi <==> StatusText(s) == PendingText(s.pendingCount)
  {
    var n := s.pendingCount;
    var d := DecimalText(n);
    // Every text starts with a different character, except the two that
    // start with "Sync", which differ at index 5.
    assert OfflineText(n)[0] == 'O';
    assert PendingText(n)[0] == d[0] && '0' <= d[0] <= '9';
    assert SyncingText[0] == 'S' && ErrorText[0] == 'S' && AllSyncedText[0] == 'A';
    assert SyncingText[5] == 'n' && ErrorText[5] == 'e';
  }
}
